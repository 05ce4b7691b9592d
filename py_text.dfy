/**
 * The pieces of Python's (and JavaScript's) string, slice and integer
 * semantics that the modelled code relies on: lower-casing, substring tests,
 * strip/lstrip, split and join, slicing with negative and out-of-range
 * indices, floor division and list-comprehension filtering.
 */
module PyText {

  /** One element of a Python `bytes`/`bytearray`. */
  newtype byte = b: int | 0 <= b < 256

  // ---------------------------------------------------------------------
  // Characters

  /** Lower-case one character (ASCII letters only). */
  function LowerChar(c: char): char {
    if 'A' <= c <= 'Z' then (c as int + 32) as char else c
  }

  /** `s.lower()` / `s.toLowerCase()`, on ASCII letters. */
  function Lower(s: string): (r: string)
    ensures |r| == |s|
    ensures forall i :: 0 <= i < |s| ==> r[i] == LowerChar(s[i])
  {
    if s == [] then [] else [LowerChar(s[0])] + Lower(s[1..])
  }

  /** Python's whitespace (`str.isspace()`): the ASCII controls 9-13 and
      28-31, the space, and the Unicode separators. */
  predicate PySpace(c: char) {
    ('\t' <= c <= '\r') || ('\U{001C}' <= c <= ' ') || c == '\U{0085}' || c == '\U{00A0}' ||
    c == '\U{1680}' || ('\U{2000}' <= c <= '\U{200A}') || c == '\U{2028}' || c == '\U{2029}' ||
    c == '\U{202F}' || c == '\U{205F}' || c == '\U{3000}'
  }

  /** The characters `str.strip()` removes and the regular-expression class
      `\s` matches. */
  const Whitespace: set<char> := set c: char | '\t' <= c <= '\U{3000}' && PySpace(c)

  /** ECMAScript's WhiteSpace and LineTerminator: unlike Python, not 28-31
      and not U+0085, but U+FEFF. */
  predicate JsSpace(c: char) {
    ('\t' <= c <= '\r') || c == ' ' || c == '\U{00A0}' || c == '\U{1680}' ||
    ('\U{2000}' <= c <= '\U{200A}') || c == '\U{2028}' || c == '\U{2029}' ||
    c == '\U{202F}' || c == '\U{205F}' || c == '\U{3000}' || c == '\U{FEFF}'
  }

  /** The characters JavaScript's `parseInt` skips at the start of its
      argument. */
  const JsWhitespace: set<char> := set c: char | '\t' <= c <= '\U{FEFF}' && JsSpace(c)

  predicate IsSpace(c: char) {
    c in Whitespace
  }

  /** Letters of the regular-expression class `[A-Za-z]`. */
  predicate IsAsciiLetter(c: char) {
    ('A' <= c <= 'Z') || ('a' <= c <= 'z')
  }

  // ---------------------------------------------------------------------
  // Substrings

  /** `sub` occurs in `s` starting at index `i`. */
  predicate OccursAt(sub: string, s: string, i: int) {
    0 <= i && i + |sub| <= |s| && s[i..i + |sub|] == sub
  }

  /** Python's `sub in s` and JavaScript's `s.includes(sub)`. */
  predicate Contains(s: string, sub: string) {
    exists i :: 0 <= i <= |s| - |sub| && OccursAt(sub, s, i)
  }

  /** `s.startswith(pre)`. */
  predicate StartsWith(s: string, pre: string) {
    |pre| <= |s| && s[..|pre|] == pre
  }

  /** The empty string is contained in every string. */
  lemma EmptyContained(s: string)
    ensures Contains(s, "")
  {
    assert OccursAt("", s, 0);
  }

  /** A string contains every one of its own substrings, in particular a window. */
  lemma ContainsWindow(s: string, i: int, n: int)
    requires 0 <= i && 0 <= n && i + n <= |s|
    ensures Contains(s, s[i..i + n])
  {
    assert OccursAt(s[i..i + n], s, i);
  }

  // ---------------------------------------------------------------------
  // Stripping

  /** `s.lstrip(chars)`: drops the longest prefix made of `chars`. */
  function LStrip(s: string, chars: set<char>): (r: string)
    ensures |r| <= |s| && r == s[|s| - |r|..]
    ensures r == [] || r[0] !in chars
    ensures forall i :: 0 <= i < |s| - |r| ==> s[i] in chars
  {
    if s == [] || s[0] !in chars then s else LStrip(s[1..], chars)
  }

  /** `s.rstrip(chars)`: drops the longest suffix made of `chars`. */
  function RStrip(s: string, chars: set<char>): (r: string)
    ensures |r| <= |s| && r == s[..|r|]
    ensures r == [] || r[|r| - 1] !in chars
    ensures forall i :: |r| <= i < |s| ==> s[i] in chars
  {
    if s == [] || s[|s| - 1] !in chars then s else RStrip(s[..|s| - 1], chars)
  }

  /** `s.strip()`: no leading or trailing whitespace is left. */
  function Strip(s: string): (r: string)
    ensures |r| <= |s|
    ensures r == [] || (!IsSpace(r[0]) && !IsSpace(r[|r| - 1]))
  {
    RStrip(LStrip(s, Whitespace), Whitespace)
  }

  /** A string with no whitespace at either end is its own `strip()`. */
  lemma StripUnchanged(s: string)
    requires s == [] || (!IsSpace(s[0]) && !IsSpace(s[|s| - 1]))
    ensures Strip(s) == s
  {
    assert LStrip(s, Whitespace) == s;
  }

  /** Stripping a string that consists of whitespace only leaves nothing. */
  lemma {:induction false} StripAllSpace(s: string)
    requires forall i :: 0 <= i < |s| ==> IsSpace(s[i])
    ensures LStrip(s, Whitespace) == [] && Strip(s) == []
  {
    if s != [] {
      StripAllSpace(s[1..]);
    }
  }

  /** A word that starts with a non-whitespace character survives `lstrip`. */
  lemma LStripKeepsWord(s: string, word: string)
    requires Contains(s, word) && word != [] && !IsSpace(word[0])
    ensures Contains(LStrip(s, Whitespace), word)
  {
    var i :| 0 <= i <= |s| - |word| && OccursAt(word, s, i);
    var l := LStrip(s, Whitespace);
    var off := |s| - |l|;
    assert s[i] == word[0] by { assert s[i..i + |word|][0] == s[i]; }
    if i < off {
      assert false;
    }
    assert l[i - off..i - off + |word|] == s[i..i + |word|];
    assert OccursAt(word, l, i - off);
  }

  /** A word that ends with a non-whitespace character survives `rstrip`. */
  lemma RStripKeepsWord(s: string, word: string)
    requires Contains(s, word) && word != [] && !IsSpace(word[|word| - 1])
    ensures Contains(RStrip(s, Whitespace), word)
  {
    var i :| 0 <= i <= |s| - |word| && OccursAt(word, s, i);
    var r := RStrip(s, Whitespace);
    var last := i + |word| - 1;
    assert s[last] == word[|word| - 1] by { assert s[i..i + |word|][|word| - 1] == s[last]; }
    if last >= |r| {
      assert false;
    }
    assert r[i..i + |word|] == s[i..i + |word|];
    assert OccursAt(word, r, i);
  }

  /** A window of a window of `s` is a window of `s`. */
  lemma ContainsInWindow(s: string, a: int, b: int, word: string)
    requires 0 <= a <= b <= |s|
    requires Contains(s[a..b], word)
    ensures Contains(s, word)
  {
    var i :| 0 <= i <= |s[a..b]| - |word| && OccursAt(word, s[a..b], i);
    forall k | 0 <= k < |word|
      ensures s[a + i..a + i + |word|][k] == word[k]
    {
      assert word[k] == s[a..b][i + k];
    }
    assert s[a + i..a + i + |word|] == word;
    assert OccursAt(word, s, a + i);
  }

  /** A substring of a substring is a substring. */
  lemma ContainsTransitive(s: string, mid: string, word: string)
    requires Contains(s, mid) && Contains(mid, word)
    ensures Contains(s, word)
  {
    var i :| 0 <= i <= |s| - |mid| && OccursAt(mid, s, i);
    ContainsInWindow(s, i, i + |mid|, word);
  }

  /** What `lstrip` leaves is a substring. */
  lemma LStripContained(s: string, chars: set<char>)
    ensures Contains(s, LStrip(s, chars))
  {
    var r := LStrip(s, chars);
    assert OccursAt(r, s, |s| - |r|);
  }

  /** What `rstrip` leaves is a substring. */
  lemma RStripContained(s: string, chars: set<char>)
    ensures Contains(s, RStrip(s, chars))
  {
    assert OccursAt(RStrip(s, chars), s, 0);
  }

  /** `s.strip()` is a substring of `s`. */
  lemma StripContained(s: string)
    ensures Contains(s, Strip(s))
  {
    var l := LStrip(s, Whitespace);
    var r := Strip(s);
    assert r == s[|s| - |l|..|s| - |l| + |r|];
    assert OccursAt(r, s, |s| - |l|);
  }

  /** `word in s.strip()` is the same as `word in s` for a word with no
      whitespace at either end. */
  lemma StripContains(s: string, word: string)
    requires word != [] && !IsSpace(word[0]) && !IsSpace(word[|word| - 1])
    ensures Contains(Strip(s), word) <==> Contains(s, word)
  {
    var l := LStrip(s, Whitespace);
    var r := RStrip(l, Whitespace);
    if Contains(s, word) {
      LStripKeepsWord(s, word);
      RStripKeepsWord(l, word);
    }
    if Contains(r, word) {
      ContainsInWindow(l, 0, |r|, word);
      assert l == s[|s| - |l|..|s|];
      ContainsInWindow(s, |s| - |l|, |s|, word);
    }
  }

  // ---------------------------------------------------------------------
  // Split and join

  /** `sep.join(parts)`. */
  function Join(parts: seq<string>, sep: string): string {
    if |parts| == 0 then ""
    else if |parts| == 1 then parts[0]
    else parts[0] + sep + Join(parts[1..], sep)
  }

  /** `s.split(sep)` for a one-character separator: never empty, no piece
      holds the separator, and joining the pieces with it gives `s` back. */
  function Split(s: string, sep: char): (r: seq<string>)
    ensures |r| >= 1
    ensures forall k :: 0 <= k < |r| ==> sep !in r[k]
    ensures Join(r, [sep]) == s
  {
    if |s| == 0 then [""]
    else if s[0] == sep then [""] + Split(s[1..], sep)
    else
      var rest := Split(s[1..], sep);
      assert Join(rest, [sep]) == s[1..];
      var r := [[s[0]] + rest[0]] + rest[1..];
      assert |rest| >= 2 ==> Join(rest, [sep]) == rest[0] + [sep] + Join(rest[1..], [sep]);
      assert Join(r, [sep]) == [s[0]] + Join(rest, [sep]);
      assert s == [s[0]] + s[1..];
      r
  }

  // ---------------------------------------------------------------------
  // Slices

  /** How Python normalises one slice bound against a length `n`. */
  function ClampIndex(i: int, n: nat): (k: nat)
    ensures k <= n
    ensures 0 <= i <= n ==> k == i
    ensures i > n ==> k == n
    ensures i < 0 ==> k == if i + n < 0 then 0 else i + n
  {
    var j := if i < 0 then i + n else i;
    if j < 0 then 0 else if j > n then n else j
  }

  /** `s[i:j]` with Python's semantics for negative and out-of-range bounds. */
  function Slice<T>(s: seq<T>, i: int, j: int): (r: seq<T>)
    ensures |r| <= |s|
    ensures var a, b := ClampIndex(i, |s|), ClampIndex(j, |s|);
      r == if a < b then s[a..b] else []
  {
    var a, b := ClampIndex(i, |s|), ClampIndex(j, |s|);
    if a < b then s[a..b] else []
  }

  /** `s[:n]`: the first `n` elements, or all but the last `-n` when `n < 0`. */
  function Take<T>(s: seq<T>, n: int): (r: seq<T>)
    ensures 0 <= n ==> r == s[..if n < |s| then n else |s|]
    ensures n < 0 ==> r == s[..if |s| + n < 0 then 0 else |s| + n]
  {
    Slice(s, 0, n)
  }

  // ---------------------------------------------------------------------
  // Integers

  /** Python's `a // b`: rounds toward negative infinity. */
  function FloorDiv(a: int, b: int): (q: int)
    requires b != 0
    ensures b > 0 ==> b * q <= a < b * q + b
    ensures b < 0 ==> b * q + b < a <= b * q
  {
    if b > 0 then a / b
    else
      var q := (-a) / (-b);
      assert (-b) * q <= -a < (-b) * q + (-b);
      q
  }

  // ---------------------------------------------------------------------
  // Comprehensions

  /** `[x for x in s if p(x)]`. */
  function Filter<T>(p: T -> bool, s: seq<T>): (r: seq<T>)
    ensures |r| <= |s|
    ensures forall k :: 0 <= k < |r| ==> p(r[k]) && r[k] in s
    ensures forall k :: 0 <= k < |s| && p(s[k]) ==> s[k] in r
  {
    if s == [] then []
    else (if p(s[0]) then [s[0]] else []) + Filter(p, s[1..])
  }

  /** Filtering keeps the original order: it distributes over concatenation. */
  lemma {:induction false} FilterAppend<T>(p: T -> bool, a: seq<T>, b: seq<T>)
    ensures Filter(p, a + b) == Filter(p, a) + Filter(p, b)
  {
    if a == [] {
      assert a + b == b;
    } else {
      assert (a + b)[1..] == a[1..] + b;
      FilterAppend(p, a[1..], b);
    }
  }

  /** Filtering with a predicate that holds everywhere changes nothing. */
  lemma {:induction false} FilterAll<T>(p: T -> bool, s: seq<T>)
    requires forall k :: 0 <= k < |s| ==> p(s[k])
    ensures Filter(p, s) == s
  {
    if s != [] {
      FilterAll(p, s[1..]);
    }
  }

  /** `[f(x) for x in s]`. */
  function Map<A, B>(f: A -> B, s: seq<A>): (r: seq<B>)
    ensures |r| == |s|
    ensures forall k :: 0 <= k < |s| ==> r[k] == f(s[k])
  {
    if s == [] then [] else [f(s[0])] + Map(f, s[1..])
  }

  /** Mapping distributes over concatenation. */
  lemma MapAppend<A, B>(f: A -> B, a: seq<A>, b: seq<A>)
    ensures Map(f, a + b) == Map(f, a) + Map(f, b)
  {
    assert |Map(f, a + b)| == |Map(f, a) + Map(f, b)|;
    forall k | 0 <= k < |a + b|
      ensures Map(f, a + b)[k] == (Map(f, a) + Map(f, b))[k]
    {
      if k < |a| {
        assert (a + b)[k] == a[k];
      } else {
        assert (a + b)[k] == b[k - |a|];
      }
    }
  }

  /** Adding one element at the end adds at most that element to the filter. */
  lemma FilterSnoc<T>(p: T -> bool, s: seq<T>, x: T)
    ensures Filter(p, s + [x]) == Filter(p, s) + (if p(x) then [x] else [])
  {
    FilterAppend(p, s, [x]);
    assert Filter(p, [x]) == (if p(x) then [x] else []) + Filter(p, []);
  }

  /** Mapping one more element adds its image at the end. */
  lemma MapSnoc<A, B>(f: A -> B, s: seq<A>, x: A)
    ensures Map(f, s + [x]) == Map(f, s) + [f(x)]
  {
    MapAppend(f, s, [x]);
  }

  /** A filter keeps something exactly when some element passes it. */
  lemma FilterNonEmpty<T>(p: T -> bool, s: seq<T>)
    ensures Filter(p, s) != [] <==> exists k :: 0 <= k < |s| && p(s[k])
  {
    if exists k :: 0 <= k < |s| && p(s[k]) {
      var k :| 0 <= k < |s| && p(s[k]);
      assert s[k] in Filter(p, s);
    }
    if Filter(p, s) != [] {
      var r := Filter(p, s);
      assert p(r[0]) && r[0] in s;
    }
  }
}
