/**
 * The text handling around retrieval-augmented answers
 * (backend/ai/implementations/schemes_rag.py): the routing decision, the
 * parsing of the language model's list of enhanced queries, and the
 * de-duplication, cap and truncation of the retrieved context.
 *
 * The language model and the vector store are foreign. A model reply is an
 * `Option<string>` (`None` when the client raised); a search is a function
 * from query to the chunks it returns (`[]` when the search raised, as
 * `direct_vector_search` does).
 */
module SchemesRag {
  import opened Wrappers
  import opened PyText

  // ---------------------------------------------------------------------
  // Routing

  const RagNeeded: string := "RAG_NEEDED"

  /** `should_use_rag`: the router asks for retrieval when its reply names
      RAG_NEEDED anywhere; a failed call routes to retrieval. */
  function ShouldUseRag(reply: Option<string>): (r: bool)
    ensures reply.None? ==> r
    ensures reply.Some? ==> (r <==> Contains(reply.value, RagNeeded))
  {
    match reply
    case None => true
    case Some(text) =>
      StripContains(text, RagNeeded);
      Contains(Strip(text), RagNeeded)
  }

  // ---------------------------------------------------------------------
  // Enhanced queries

  const Header: string := "Enhanced Queries:"

  /** The characters of `lstrip('- *•')`. */
  const Bullets: set<char> := {'-', ' ', '*', '•'}

  /** `line.lstrip('- *•').strip()` of an already stripped line. */
  function CleanLine(line: string): (r: string)
    ensures r == [] || (!IsSpace(r[0]) && !IsSpace(r[|r| - 1]))
    ensures Contains(line, r)
  {
    var l := LStrip(line, Bullets);
    LStripContained(line, Bullets);
    StripContained(l);
    ContainsTransitive(line, l, Strip(l));
    Strip(l)
  }

  /** A usable query: non-empty, with no whitespace at either end. */
  predicate IsQuery(q: string) {
    q != [] && !IsSpace(q[0]) && !IsSpace(q[|q| - 1])
  }

  /** What one line of the reply contributes: nothing for a blank line, the
      "Enhanced Queries:" header or a line of bullets only; otherwise its
      cleaned text. */
  function QueryOf(line: string): (r: seq<string>)
    ensures |r| <= 1
    ensures r != [] ==> IsQuery(r[0]) && Contains(line, r[0])
  {
    var l := Strip(line);
    var clean := CleanLine(l);
    CleanedInLine(line);
    if l != [] && !StartsWith(l, Header) && clean != [] then [clean] else []
  }

  lemma CleanedInLine(line: string)
    ensures Contains(line, CleanLine(Strip(line)))
  {
    StripContained(line);
    ContainsTransitive(line, Strip(line), CleanLine(Strip(line)));
  }

  /** The queries parsed from the lines of a reply, in line order. */
  function ParsedQueries(lines: seq<string>): (r: seq<string>)
    ensures |r| <= |lines|
    ensures forall k :: 0 <= k < |r| ==> IsQuery(r[k])
  {
    if lines == [] then []
    else
      var init, q := ParsedQueries(lines[..|lines| - 1]), QueryOf(lines[|lines| - 1]);
      AllQueries(init, q);
      init + q
  }

  lemma AllQueries(p: seq<string>, q: seq<string>)
    requires forall k :: 0 <= k < |p| ==> IsQuery(p[k])
    requires |q| <= 1 && (q != [] ==> IsQuery(q[0]))
    ensures forall k :: 0 <= k < |p + q| ==> IsQuery((p + q)[k])
  {
  }

  /** `q` occurs in one of the lines. */
  predicate InSomeLine(lines: seq<string>, q: string) {
    exists j :: 0 <= j < |lines| && Contains(lines[j], q)
  }

  /** Every parsed query is text that occurs in one of the reply's lines. */
  lemma {:induction false} ParsedQueriesFromLines(lines: seq<string>)
    ensures forall k :: 0 <= k < |ParsedQueries(lines)| ==> InSomeLine(lines, ParsedQueries(lines)[k])
  {
    if lines != [] {
      var n := |lines| - 1;
      ParsedQueriesFromLines(lines[..n]);
      ParsedFromLinesStep(lines[..n], lines[n]);
      assert lines[..n] + [lines[n]] == lines;
    }
  }

  /** One more line keeps every parsed query inside some line. */
  lemma ParsedFromLinesStep(init: seq<string>, last: string)
    requires forall k :: 0 <= k < |ParsedQueries(init)| ==> InSomeLine(init, ParsedQueries(init)[k])
    ensures var lines := init + [last];
      forall k :: 0 <= k < |ParsedQueries(lines)| ==> InSomeLine(lines, ParsedQueries(lines)[k])
  {
    var lines := init + [last];
    assert lines[..|lines| - 1] == init;
    var p, q := ParsedQueries(init), QueryOf(last);
    assert ParsedQueries(lines) == p + q;
    forall k | 0 <= k < |p + q|
      ensures InSomeLine(lines, (p + q)[k])
    {
      if k < |p| {
        InSomeLineGrows(init, last, p[k]);
      } else {
        assert lines[|init|] == last;
        assert Contains(lines[|init|], q[0]);
      }
    }
  }

  lemma InSomeLineGrows(lines: seq<string>, line: string, q: string)
    requires InSomeLine(lines, q)
    ensures InSomeLine(lines + [line], q)
  {
    var j :| 0 <= j < |lines| && Contains(lines[j], q);
    assert (lines + [line])[j] == lines[j];
  }

  /** One more line adds what that line contributes. */
  lemma ParsedStep(lines: seq<string>, i: int)
    requires 0 <= i < |lines|
    ensures ParsedQueries(lines[..i + 1]) == ParsedQueries(lines[..i]) + QueryOf(lines[i])
  {
    assert lines[..i + 1][..i] == lines[..i];
  }

  /** Blank lines, the header and bullet-only lines add nothing. */
  lemma DroppedLine(lines: seq<string>, line: string)
    requires var l := Strip(line); l == [] || StartsWith(l, Header) || CleanLine(l) == []
    ensures ParsedQueries(lines + [line]) == ParsedQueries(lines)
  {
    assert (lines + [line])[..|lines|] == lines;
  }

  /** The queries parsed from a whole reply: its stripped text split into
      lines. */
  function ParsedReply(text: string): seq<string> {
    ParsedQueries(Split(Strip(text), '\n'))
  }

  /** The parsed queries with the original appended when it is missing. */
  function WithOriginal(original: string, parsed: seq<string>): (r: seq<string>)
    ensures original in r
    ensures parsed <= r && |r| <= |parsed| + 1
  {
    if original in parsed then parsed else parsed + [original]
  }

  /** `enhance_query` as a function of the enhancer's reply: the parsed
      queries, the original appended when missing, the first 4 kept; a
      failed call gives the original alone. */
  function EnhancedQueries(original: string, reply: Option<string>): (r: seq<string>)
    ensures 1 <= |r| <= 4
    ensures reply.None? ==> r == [original]
    ensures reply.Some? ==>
      var w := WithOriginal(original, ParsedReply(reply.value));
      |r| == (if |w| < 4 then |w| else 4) && r == w[..|r|]
  {
    match reply
    case None => [original]
    case Some(text) => Take(WithOriginal(original, ParsedReply(text)), 4)
  }

  /** The original query survives whenever fewer than four queries were
      parsed. */
  lemma OriginalKeptWhenFew(original: string, text: string)
    requires |ParsedReply(text)| < 4
    ensures original in EnhancedQueries(original, Some(text))
  {
    assert EnhancedQueries(original, Some(text)) == WithOriginal(original, ParsedReply(text));
  }

  /** The cut to four entries can drop the original query: when four or more
      other queries were parsed, the original is not returned. */
  lemma OriginalCutOff(original: string, text: string)
    requires |ParsedReply(text)| >= 4 && original !in ParsedReply(text)
    ensures original !in EnhancedQueries(original, Some(text))
  {
    FirstFourLackOriginal(original, ParsedReply(text));
  }

  /** Four or more parsed queries without the original leave it out of the first four. */
  lemma FirstFourLackOriginal(original: string, p: seq<string>)
    requires |p| >= 4 && original !in p
    ensures original !in Take(WithOriginal(original, p), 4)
  {
    assert WithOriginal(original, p) == p + [original];
    assert (p + [original])[..4] == p[..4];
  }

  /** `enhance_query`: walks the lines of the stripped reply, cleaning and
      collecting the queries. */
  method EnhanceQuery(original: string, reply: Option<string>) returns (queries: seq<string>)
    ensures queries == EnhancedQueries(original, reply)
  {
    if reply.None? {
      return [original];
    }
    var lines := Split(Strip(reply.value), '\n');
    var found: seq<string> := [];
    var i := 0;
    while i < |lines|
      invariant 0 <= i <= |lines|
      invariant found == ParsedQueries(lines[..i])
    {
      ParsedStep(lines, i);
      var line := Strip(lines[i]);
      if line != [] && !StartsWith(line, Header) {
        var clean := CleanLine(line);
        if clean != [] {
          found := found + [clean];
        }
      }
      i := i + 1;
    }
    assert lines[..i] == lines;
    if original !in found {
      found := found + [original];
    }
    queries := Take(found, 4);
  }

  // ---------------------------------------------------------------------
  // Retrieved context

  /** One search hit: `scoreTag` is the rendered "[Score: …] " prefix, `content`
      the chunk's text. */
  datatype Chunk = Chunk(scoreTag: string, content: string)

  /** The de-duplication key: the first 100 characters of the content. */
  function Key(c: Chunk): (k: string)
    ensures |k| <= 100 && |k| <= |c.content| && k == c.content[..|k|]
  {
    Take(c.content, 100)
  }

  /** The line a hit contributes to the context. */
  function Render(c: Chunk): string {
    c.scoreTag + c.content
  }

  /** The keys of a list of hits. */
  function Keys(s: seq<Chunk>): (ks: set<string>)
    ensures forall k :: 0 <= k < |s| ==> Key(s[k]) in ks
    ensures forall key :: key in ks ==> exists k :: 0 <= k < |s| && Key(s[k]) == key
  {
    if s == [] then {}
    else
      var ks := Keys(s[..|s| - 1]) + {Key(s[|s| - 1])};
      assert forall key :: key in ks ==> exists k :: 0 <= k < |s| && Key(s[k]) == key by {
        forall key | key in ks
          ensures exists k :: 0 <= k < |s| && Key(s[k]) == key
        {
          if key in Keys(s[..|s| - 1]) {
            var k :| 0 <= k < |s| - 1 && Key(s[..|s| - 1][k]) == key;
            assert s[k] == s[..|s| - 1][k];
          }
        }
      }
      ks
  }

  /** The hits kept, in retrieval order: a hit is dropped when an earlier
      kept hit has the same key. */
  function Kept(hits: seq<Chunk>): (r: seq<Chunk>)
    ensures |r| <= |hits|
    ensures forall i, j :: 0 <= i < j < |r| ==> Key(r[i]) != Key(r[j])
  {
    if hits == [] then []
    else
      var init := Kept(hits[..|hits| - 1]);
      var c := hits[|hits| - 1];
      if Key(c) in Keys(init) then init
      else
        assert forall i :: 0 <= i < |init| ==> Key(init[i]) != Key(c);
        init + [c]
  }

  /** Nothing is lost key-wise: every key retrieved has a kept hit. */
  lemma {:induction false} KeptCoversKeys(hits: seq<Chunk>)
    ensures Keys(Kept(hits)) == Keys(hits)
  {
    if hits != [] {
      var init := hits[..|hits| - 1];
      KeptCoversKeys(init);
      var c := hits[|hits| - 1];
      assert Keys(hits) == Keys(init) + {Key(c)};
      if Key(c) !in Keys(Kept(init)) {
        var kept := Kept(init) + [c];
        assert kept[..|kept| - 1] == Kept(init);
      }
    }
  }

  /** One more hit is kept exactly when its key is new. */
  lemma KeptSnoc(hits: seq<Chunk>, c: Chunk)
    ensures Kept(hits + [c]) == if Key(c) in Keys(Kept(hits)) then Kept(hits) else Kept(hits) + [c]
  {
    assert (hits + [c])[..|hits|] == hits;
  }

  /** Retrieving more hits only extends what was kept: the first occurrence
      of a key wins and the order of retrieval is preserved. */
  lemma {:induction false} KeptPrefix(hits: seq<Chunk>, more: seq<Chunk>)
    ensures Kept(hits) <= Kept(hits + more)
  {
    if more == [] {
      assert hits + more == hits;
    } else {
      var init := more[..|more| - 1];
      KeptPrefix(hits, init);
      assert hits + more == (hits + init) + [more[|more| - 1]];
      KeptSnoc(hits + init, more[|more| - 1]);
    }
  }

  /** No hit before position `i` has the key of the hit at `i`. */
  predicate FirstOfKey(hits: seq<Chunk>, i: int)
    requires 0 <= i < |hits|
  {
    forall j :: 0 <= j < i ==> Key(hits[j]) != Key(hits[i])
  }

  /** `c` is the first hit with its key. */
  predicate IsFirstOccurrence(hits: seq<Chunk>, c: Chunk) {
    exists i :: 0 <= i < |hits| && hits[i] == c && FirstOfKey(hits, i)
  }

  /** Every kept hit is a first occurrence of its key among the hits. */
  lemma {:induction false} KeptAreFirst(hits: seq<Chunk>)
    ensures forall k :: 0 <= k < |Kept(hits)| ==> IsFirstOccurrence(hits, Kept(hits)[k])
  {
    if hits != [] {
      var init, c := hits[..|hits| - 1], hits[|hits| - 1];
      assert hits == init + [c];
      KeptAreFirst(init);
      KeptCoversKeys(init);
      KeptSnoc(init, c);
      if Key(c) in Keys(Kept(init)) {
        FirstOccurrencesExtend(init, c, Kept(init));
      } else {
        FirstOccurrencesAppend(init, c, Kept(init));
      }
    }
  }

  /** First occurrences stay first when a hit is appended. */
  lemma FirstOccurrencesExtend(init: seq<Chunk>, c: Chunk, p: seq<Chunk>)
    requires forall k :: 0 <= k < |p| ==> IsFirstOccurrence(init, p[k])
    ensures forall k :: 0 <= k < |p| ==> IsFirstOccurrence(init + [c], p[k])
  {
    forall k | 0 <= k < |p|
      ensures IsFirstOccurrence(init + [c], p[k])
    {
      FirstOccurrenceExtends(init, c, p[k]);
    }
  }

  /** An appended hit of a new key is itself a first occurrence. */
  lemma FirstOccurrencesAppend(init: seq<Chunk>, c: Chunk, p: seq<Chunk>)
    requires forall k :: 0 <= k < |p| ==> IsFirstOccurrence(init, p[k])
    requires Key(c) !in Keys(init)
    ensures forall k :: 0 <= k < |p + [c]| ==> IsFirstOccurrence(init + [c], (p + [c])[k])
  {
    FirstOccurrencesExtend(init, c, p);
    LastIsFirst(init, c);
    assert (init + [c])[|init|] == c;
    assert IsFirstOccurrence(init + [c], c);
    forall k | 0 <= k < |p + [c]|
      ensures IsFirstOccurrence(init + [c], (p + [c])[k])
    {
      if k < |p| {
        assert (p + [c])[k] == p[k];
      }
    }
  }

  /** A first occurrence stays one when a hit is appended. */
  lemma FirstOccurrenceExtends(init: seq<Chunk>, c: Chunk, x: Chunk)
    requires IsFirstOccurrence(init, x)
    ensures IsFirstOccurrence(init + [c], x)
  {
    var i :| 0 <= i < |init| && init[i] == x && FirstOfKey(init, i);
    FirstOfKeyPrefix(init, c, i);
    assert (init + [c])[i] == x;
  }

  lemma FirstOfKeyPrefix(init: seq<Chunk>, c: Chunk, i: int)
    requires 0 <= i < |init| && FirstOfKey(init, i)
    ensures FirstOfKey(init + [c], i)
  {
    assert forall j :: 0 <= j <= i ==> (init + [c])[j] == init[j];
  }

  lemma LastIsFirst(init: seq<Chunk>, c: Chunk)
    requires Key(c) !in Keys(init)
    ensures FirstOfKey(init + [c], |init|)
  {
    forall j | 0 <= j < |init|
      ensures Key((init + [c])[j]) != Key(c)
    {
      assert (init + [c])[j] == init[j];
    }
  }

  /** All the hits of a list of queries, query by query. */
  function AllHits(queries: seq<string>, search: string -> seq<Chunk>): seq<Chunk> {
    if queries == [] then []
    else AllHits(queries[..|queries| - 1], search) + search(queries[|queries| - 1])
  }

  const MaxChunks: int := 8
  const MaxContext: int := 4000
  const Ellipsis: string := "..."

  /** The cap on length: more than 4000 characters become the first 4000
      followed by "...". */
  function Truncate(s: string): (r: string)
    ensures |r| <= MaxContext + |Ellipsis|
    ensures |s| <= MaxContext ==> r == s
    ensures |s| > MaxContext ==>
      |r| == MaxContext + |Ellipsis| && r[..MaxContext] == s[..MaxContext] && r[MaxContext..] == Ellipsis
  {
    if |s| > MaxContext then s[..MaxContext] + Ellipsis else s
  }

  /** The chunks that go into the context: the first 8 kept hits. */
  function ContextChunks(queries: seq<string>, search: string -> seq<Chunk>): (r: seq<Chunk>)
    ensures |r| <= MaxChunks
    ensures r <= Kept(AllHits(queries, search))
  {
    Take(Kept(AllHits(queries, search)), MaxChunks)
  }

  /** `retrieve_context` as a function of the search results. */
  function ContextOf(queries: seq<string>, search: string -> seq<Chunk>): (r: string)
    ensures |r| <= MaxContext + |Ellipsis|
  {
    Truncate(Join(Map(Render, ContextChunks(queries, search)), "\n\n"))
  }

  /** With no hit at all the context is empty. */
  lemma NoHitsNoContext(queries: seq<string>, search: string -> seq<Chunk>)
    requires AllHits(queries, search) == []
    ensures ContextOf(queries, search) == ""
  {
  }

  /** `retrieve_context`: runs every query, keeps the hits whose key is new
      and joins at most 8 of them, capped in length. */
  method RetrieveContext(queries: seq<string>, search: string -> seq<Chunk>) returns (context: string)
    ensures context == ContextOf(queries, search)
  {
    var contexts := CollectContexts(queries, search);
    TakeRendered(Kept(AllHits(queries, search)));
    var combined := Join(Take(contexts, MaxChunks), "\n\n");
    if |combined| > MaxContext {
      combined := combined[..MaxContext] + Ellipsis;
    }
    context := combined;
  }

  /** The first 8 rendered hits are the rendering of the first 8 hits. */
  lemma TakeRendered(kept: seq<Chunk>)
    ensures Take(Map(Render, kept), MaxChunks) == Map(Render, Take(kept, MaxChunks))
  {
  }

  /** The loops of `retrieve_context`: the rendered hits kept over all the
      queries, in retrieval order. */
  method CollectContexts(queries: seq<string>, search: string -> seq<Chunk>) returns (contexts: seq<string>)
    ensures contexts == Map(Render, Kept(AllHits(queries, search)))
  {
    contexts := [];
    ghost var hits: seq<Chunk> := [];
    ghost var kept: seq<Chunk> := [];
    var seen: set<string> := {};
    var i := 0;
    while i < |queries|
      invariant 0 <= i <= |queries|
      invariant hits == AllHits(queries[..i], search)
      invariant Collected(hits, contexts, seen, kept)
    {
      var results := search(queries[i]);
      AllHitsStep(queries, search, i);
      contexts, seen, kept := KeepNew(hits, results, contexts, seen, kept);
      hits := hits + results;
      i := i + 1;
    }
    assert queries[..i] == queries;
  }

  /** The hits of one more query follow the hits of the queries before it. */
  lemma AllHitsStep(queries: seq<string>, search: string -> seq<Chunk>, i: int)
    requires 0 <= i < |queries|
    ensures AllHits(queries[..i + 1], search) == AllHits(queries[..i], search) + search(queries[i])
  {
    assert queries[..i + 1][..i] == queries[..i];
  }

  /** The state of `retrieve_context` after the hits `hits`: the rendered
      kept hits and the set of their keys. */
  ghost predicate Collected(hits: seq<Chunk>, contexts: seq<string>, seen: set<string>, kept: seq<Chunk>) {
    kept == Kept(hits) && contexts == Map(Render, kept) && seen == Keys(kept)
  }

  /** The inner loop of `retrieve_context`: one query's results, each kept
      (rendered, its key remembered) when its key has not been seen. */
  method KeepNew(ghost before: seq<Chunk>, results: seq<Chunk>, contexts: seq<string>, seen: set<string>,
                 ghost kept: seq<Chunk>)
    returns (newContexts: seq<string>, newSeen: set<string>, ghost newKept: seq<Chunk>)
    requires Collected(before, contexts, seen, kept)
    ensures Collected(before + results, newContexts, newSeen, newKept)
  {
    newContexts, newSeen, newKept := contexts, seen, kept;
    var j := 0;
    assert before + results[..j] == before;
    while j < |results|
      invariant 0 <= j <= |results|
      invariant newKept == Kept(before + results[..j])
      invariant newContexts == Map(Render, newKept)
      invariant newSeen == Keys(newKept)
    {
      var result := results[j];
      var key := Key(result);
      KeptStep(before, results, j);
      if key !in newSeen {
        MapSnoc(Render, newKept, result);
        KeysSnoc(newKept, result);
        newKept := newKept + [result];
        newContexts := newContexts + [result.scoreTag + result.content];
        newSeen := newSeen + {key};
      }
      j := j + 1;
    }
    assert results[..j] == results;
  }

  /** One more result of a query is kept exactly when its key is new. */
  lemma KeptStep(before: seq<Chunk>, results: seq<Chunk>, j: int)
    requires 0 <= j < |results|
    ensures var kept := Kept(before + results[..j]);
      Kept(before + results[..j + 1]) == if Key(results[j]) in Keys(kept) then kept else kept + [results[j]]
  {
    assert before + results[..j + 1] == (before + results[..j]) + [results[j]];
    KeptSnoc(before + results[..j], results[j]);
  }

  /** The keys of one more hit. */
  lemma KeysSnoc(s: seq<Chunk>, c: Chunk)
    ensures Keys(s + [c]) == Keys(s) + {Key(c)}
  {
    assert (s + [c])[..|s|] == s;
  }

  // ---------------------------------------------------------------------
  // The pipeline

  /** `get_enhanced_context`: routing says no, or nothing was retrieved,
      gives (false, ""); otherwise (true, the context). */
  method GetEnhancedContext(query: string, routerReply: Option<string>, enhancerReply: Option<string>,
                            search: string -> seq<Chunk>) returns (needsRag: bool, context: string)
    ensures needsRag <==> context != ""
    ensures !ShouldUseRag(routerReply) ==> !needsRag
    ensures ShouldUseRag(routerReply) ==> context == ContextOf(EnhancedQueries(query, enhancerReply), search)
  {
    if !ShouldUseRag(routerReply) {
      return false, "";
    }
    var queries := EnhanceQuery(query, enhancerReply);
    context := RetrieveContext(queries, search);
    if context != "" {
      needsRag := true;
    } else {
      needsRag, context := false, "";
    }
  }
}
