/** The excerpting and summarising helpers of lib/ai/rag.ts: `extractRelevantExcerpts`,
    `summarizeContent` and `generateContextSummary`. The settings that `getRAGSettings()`
    returns are a parameter. */
module RagExcerpts {
  import opened Strings
  import opened Collections
  import opened Schema
  import opened Cms
  import opened RagSettings

  // ---------------------------------------------------------------------
  // Sentences and their scores

  predicate IsSentenceEnd(c: char) { c == '.' || c == '!' || c == '?' }

  function LongSentence(): string -> bool
  {
    (s: string) => |Trim(s)| > 20
  }

  /** The pieces of `content` between sentence ends whose trimmed text is longer than 20. */
  function Sentences(content: string): (r: seq<string>)
    ensures forall i :: 0 <= i < |r| ==> r[i] in SplitOn(content, IsSentenceEnd) && |Trim(r[i])| > 20
  {
    Filter(SplitOn(content, IsSentenceEnd), LongSentence())
  }

  /** The number of query words, counted with repetition, that occur in `lowerSentence`. */
  function Score(lowerSentence: string, words: seq<string>): (n: nat)
    ensures n <= |words|
  {
    if words == [] then 0
    else
      Score(lowerSentence, words[..|words| - 1])
      + (if Contains(lowerSentence, words[|words| - 1]) then 1 else 0)
  }

  /** A sentence scores above zero exactly when some query word occurs in it. */
  lemma {:induction false} ScorePositive(lowerSentence: string, words: seq<string>)
    ensures Score(lowerSentence, words) > 0 <==>
      exists i :: 0 <= i < |words| && Contains(lowerSentence, words[i])
  {
    if words != [] {
      var init := words[..|words| - 1];
      ScorePositive(lowerSentence, init);
      assert forall i :: 0 <= i < |init| ==> init[i] == words[i];
    }
  }

  /** The `forEach` that adds one for every query word the sentence contains. */
  method SentenceScore(lowerSentence: string, queryWords: seq<string>) returns (score: nat)
    ensures score == Score(lowerSentence, queryWords)
  {
    score := 0;
    for i := 0 to |queryWords|
      invariant score == Score(lowerSentence, queryWords[..i])
    {
      assert queryWords[..i + 1][..i] == queryWords[..i];
      if Contains(lowerSentence, queryWords[i]) {
        score := score + 1;
      }
    }
    assert queryWords[..|queryWords|] == queryWords;
  }

  datatype ScoredSentence = ScoredSentence(sentence: string, score: nat)

  function ScoreOf(s: ScoredSentence): real { s.score as real }

  function Positive(): ScoredSentence -> bool
  {
    (s: ScoredSentence) => s.score > 0
  }

  /** The trimmed sentence with the score of its lowercased text. */
  function ScoreSentence(sentence: string, words: seq<string>): ScoredSentence
  {
    ScoredSentence(Trim(sentence), Score(ToLower(sentence), words))
  }

  function ScoreAll(sentences: seq<string>, words: seq<string>): (r: seq<ScoredSentence>)
    ensures |r| == |sentences|
    ensures forall i :: 0 <= i < |r| ==> r[i] == ScoreSentence(sentences[i], words)
  {
    seq(|sentences|, i requires 0 <= i < |sentences| => ScoreSentence(sentences[i], words))
  }

  /** The scored sentences kept: positive, highest score first, the first `min(max, 8)`. */
  function Ranked(sentences: seq<string>, words: seq<string>, actualMax: int): seq<ScoredSentence>
  {
    SlicePrefix(SortDesc(Filter(ScoreAll(sentences, words), Positive()), ScoreOf), Min(actualMax, 8))
  }

  function Texts(ranked: seq<ScoredSentence>): (r: seq<string>)
    ensures |r| == |ranked|
    ensures forall i :: 0 <= i < |r| ==> r[i] == ranked[i].sentence
  {
    seq(|ranked|, i requires 0 <= i < |ranked| => ranked[i].sentence)
  }

  /** `maxExcerpts ?? settings.maxExcerpts`. */
  function ActualMaxExcerpts(maxExcerpts: Option<int>, settings: RAGSettings): int
  {
    if maxExcerpts.Some? then maxExcerpts.value else settings.maxExcerpts
  }

  /** The excerpts `extractRelevantExcerpts` returns. */
  function Excerpts(content: string, query: string, actualMax: int): (r: seq<string>)
    ensures |r| <= |Sentences(content)|
  {
    Texts(Ranked(Sentences(content), LongWords(ToLower(query)), actualMax))
  }

  /** The scoring `map` of `extractRelevantExcerpts`, one sentence at a time. */
  method ScoreSentences(sentences: seq<string>, queryWords: seq<string>)
    returns (scoredSentences: seq<ScoredSentence>)
    ensures scoredSentences == ScoreAll(sentences, queryWords)
  {
    scoredSentences := [];
    for i := 0 to |sentences|
      invariant |scoredSentences| == i
      invariant forall k :: 0 <= k < i ==> scoredSentences[k] == ScoreSentence(sentences[k], queryWords)
    {
      var score := SentenceScore(ToLower(sentences[i]), queryWords);
      var entry := ScoredSentence(Trim(sentences[i]), score);
      assert entry == ScoreSentence(sentences[i], queryWords);
      scoredSentences := scoredSentences + [entry];
    }
  }

  /** `extractRelevantExcerpts`: each sentence scored, then filtered, ranked and cut. */
  method ExtractRelevantExcerpts(content: string, query: string, maxExcerpts: Option<int>,
                                 settings: RAGSettings) returns (excerpts: seq<string>)
    ensures excerpts == Excerpts(content, query, ActualMaxExcerpts(maxExcerpts, settings))
  {
    var actualMaxExcerpts := if maxExcerpts.Some? then maxExcerpts.value else settings.maxExcerpts;
    var sentences := Sentences(content);
    var queryWords := LongWords(ToLower(query));
    var scoredSentences := ScoreSentences(sentences, queryWords);
    var kept := SortDesc(Filter(scoredSentences, Positive()), ScoreOf);
    excerpts := Texts(SlicePrefix(kept, Min(actualMaxExcerpts, 8)));
  }

  /** At most `min(max, 8)` excerpts for a non-negative maximum, and never more than there are
      sentences. */
  lemma ExcerptsBound(content: string, query: string, actualMax: int)
    ensures actualMax >= 0 ==> |Excerpts(content, query, actualMax)| <= Min(actualMax, 8)
    ensures |Excerpts(content, query, actualMax)| <= |Sentences(content)|
  {
  }

  /** The ranked excerpts come highest score first. */
  lemma RankedSorted(sentences: seq<string>, words: seq<string>, actualMax: int)
    ensures SortedDesc(Ranked(sentences, words, actualMax), ScoreOf)
  {
    var sorted := SortDesc(Filter(ScoreAll(sentences, words), Positive()), ScoreOf);
    SortedPrefix(sorted, ScoreOf, |SlicePrefix(sorted, Min(actualMax, 8))|);
  }

  /** Every ranked entry is the trim of one of the sentences, with that sentence's positive
      score. */
  lemma RankedFromSentences(sentences: seq<string>, words: seq<string>, actualMax: int)
    ensures forall i :: 0 <= i < |Ranked(sentences, words, actualMax)| ==>
      Ranked(sentences, words, actualMax)[i].score > 0 &&
      exists k :: 0 <= k < |sentences| && Ranked(sentences, words, actualMax)[i] == ScoreSentence(sentences[k], words)
  {
    var filtered := Filter(ScoreAll(sentences, words), Positive());
    var sorted := SortDesc(filtered, ScoreOf);
    SortedMembers(filtered, ScoreOf);
    var r := Ranked(sentences, words, actualMax);
    forall i | 0 <= i < |r|
      ensures r[i].score > 0 && exists k :: 0 <= k < |sentences| && r[i] == ScoreSentence(sentences[k], words)
    {
      assert r[i] == sorted[i];
      assert r[i] in filtered;
      var j :| 0 <= j < |filtered| && filtered[j] == r[i];
      assert Positive()(filtered[j]);
      var k :| 0 <= k < |ScoreAll(sentences, words)| && ScoreAll(sentences, words)[k] == r[i];
    }
  }

  /** `e` is the trim of one of the sentences, in whose lowercased text one of the words
      occurs. */
  predicate RelevantTo(e: string, sentences: seq<string>, words: seq<string>)
  {
    exists k, j :: 0 <= k < |sentences| && 0 <= j < |words| &&
      e == Trim(sentences[k]) && Contains(ToLower(sentences[k]), words[j])
  }

  lemma RankedRelevant(sentences: seq<string>, words: seq<string>, actualMax: int)
    ensures forall e :: e in Texts(Ranked(sentences, words, actualMax)) ==> RelevantTo(e, sentences, words)
  {
    var ranked := Ranked(sentences, words, actualMax);
    RankedFromSentences(sentences, words, actualMax);
    forall e | e in Texts(ranked) ensures RelevantTo(e, sentences, words) {
      var i :| 0 <= i < |Texts(ranked)| && Texts(ranked)[i] == e;
      var k :| 0 <= k < |sentences| && ranked[i] == ScoreSentence(sentences[k], words);
      ScorePositive(ToLower(sentences[k]), words);
      var j :| 0 <= j < |words| && Contains(ToLower(sentences[k]), words[j]);
    }
  }

  /** Each excerpt is a trimmed sentence piece longer than 20 characters in which some query
      word longer than two characters occurs. */
  lemma ExcerptsRelevant(content: string, query: string, actualMax: int, e: string)
    requires e in Excerpts(content, query, actualMax)
    ensures exists piece, w ::
              && piece in SplitOn(content, IsSentenceEnd) && w in LongWords(ToLower(query))
              && e == Trim(piece) && |e| > 20 && |w| > 2 && Contains(ToLower(piece), w)
  {
    var sentences, words := Sentences(content), LongWords(ToLower(query));
    RankedRelevant(sentences, words, actualMax);
    var k, j :| 0 <= k < |sentences| && 0 <= j < |words| &&
      e == Trim(sentences[k]) && Contains(ToLower(sentences[k]), words[j]);
    assert words[j] in words;
    assert sentences[k] in SplitOn(content, IsSentenceEnd);
  }

  // ---------------------------------------------------------------------
  // Summaries

  /** `summarizeContent`: nothing without excerpts, else the first excerpt, shortened to 147
      characters and an ellipsis when it is longer than 150. */
  function SummarizeContent(excerpts: seq<string>, title: string): (r: string)
    ensures |r| <= 150
    ensures r == "" <==> excerpts == [] || excerpts[0] == ""
    ensures excerpts != [] && |excerpts[0]| <= 150 ==> r == excerpts[0]
    ensures excerpts != [] && |excerpts[0]| > 150 ==>
      |r| == 150 && r[..147] == excerpts[0][..147] && r[147..] == "..."
  {
    if |excerpts| == 0 then ""
    else
      var mainExcerpt := excerpts[0];
      if |mainExcerpt| > 150 then mainExcerpt[..147] + "..." else mainExcerpt
  }

  /** The type name of each result, in result order; `generateContextSummary` removes the
      repeats. */
  function TypeNames(results: seq<CmsResult>): (r: seq<string>)
    ensures |r| == |results|
    ensures forall i :: 0 <= i < |r| ==> r[i] == ContentTypeName(results[i].kind)
  {
    seq(|results|, i requires 0 <= i < |results| => ContentTypeName(results[i].kind))
  }

  /** The categories of the results that are present and non-empty, in order. */
  function CategoryNames(results: seq<CmsResult>): (r: seq<string>)
    ensures |r| <= |results|
    ensures forall i :: 0 <= i < |r| ==> r[i] != ""
  {
    if results == [] then []
    else
      var init, last := results[..|results| - 1], results[|results| - 1];
      CategoryNames(init) + (if Present(last.category) then [last.category.value] else [])
  }

  /** The names are exactly the present categories of the results. */
  lemma {:induction false} CategoryNamesExact(results: seq<CmsResult>)
    ensures forall i :: 0 <= i < |CategoryNames(results)| ==>
      exists k :: 0 <= k < |results| && results[k].category == Some(CategoryNames(results)[i])
    ensures forall k :: 0 <= k < |results| && Present(results[k].category) ==>
      results[k].category.value in CategoryNames(results)
  {
    if results != [] {
      var init, last := results[..|results| - 1], results[|results| - 1];
      CategoryNamesExact(init);
      assert forall k :: 0 <= k < |init| ==> init[k] == results[k];
      var r, s := CategoryNames(results), CategoryNames(init);
      assert r == s + (if Present(last.category) then [last.category.value] else []);
      forall i | 0 <= i < |r|
        ensures exists k :: 0 <= k < |results| && results[k].category == Some(r[i])
      {
        if i < |s| {
          var k :| 0 <= k < |init| && init[k].category == Some(s[i]);
          assert r[i] == s[i] && results[k] == init[k];
        } else {
          assert results[|results| - 1].category == Some(r[i]);
        }
      }
    } else {
      assert CategoryNames(results) == [];
    }
  }

  /** The optional `(types)` part. */
  function TypesPart(types: seq<string>): string
  {
    if |types| > 0 then " (" + Join(types, ", ") + ")" else ""
  }

  /** The optional ` from categories: ...` part. */
  function CategoriesPart(categories: seq<string>): string
  {
    if |categories| > 0 then " from categories: " + Join(categories, ", ") else ""
  }

  function Plural(n: nat): string { if n > 1 then "s" else "" }

  /** The summary text for `n` results with the given distinct types and categories. */
  function SummaryText(n: nat, types: seq<string>, categories: seq<string>): string
  {
    "Found " + NatToString(n) + " relevant document" + Plural(n)
    + TypesPart(types) + CategoriesPart(categories)
  }

  /** `generateContextSummary`. */
  function GenerateContextSummary(results: seq<CmsResult>): (r: string)
    ensures var head := "Found " + NatToString(|results|) + " relevant document";
      && head <= r
      && (|results| > 1 <==> |r| > |head| && r[|head|] == 's')
  {
    SummaryTextOpening(|results|, Dedup(TypeNames(results)), Dedup(CategoryNames(results)));
    SummaryText(|results|, Dedup(TypeNames(results)), Dedup(CategoryNames(results)))
  }

  /** A text made of a head, an optional `s` and two parts that are empty or open with a
      space has `s` right after the head exactly when the `s` is there. */
  lemma PluralMark(head: string, plural: string, a: string, b: string)
    requires (plural == "s" || plural == "") && (a == [] || a[0] == ' ') && (b == [] || b[0] == ' ')
    ensures head <= head + plural + a + b
    ensures plural == "s" <==> |head + plural + a + b| > |head| && (head + plural + a + b)[|head|] == 's'
  {
    var s := head + plural + a + b;
    assert s[..|head|] == head;
    if plural == "" && |s| > |head| {
      if a != [] {
        assert s[|head|] == a[0];
      } else {
        assert s[|head|] == b[0];
      }
    }
  }

  /** The text opens with the count, followed by `s` exactly when there is more than one. */
  lemma SummaryTextOpening(n: nat, types: seq<string>, categories: seq<string>)
    ensures var head := "Found " + NatToString(n) + " relevant document";
      var s := SummaryText(n, types, categories);
      && head <= s
      && (n > 1 <==> |s| > |head| && s[|head|] == 's')
  {
    var head := "Found " + NatToString(n) + " relevant document";
    var a, b := TypesPart(types), CategoriesPart(categories);
    assert a == [] || a[0] == ' ';
    assert b == [] || b[0] == ' ';
    PluralMark(head, Plural(n), a, b);
  }

  /** Each type and each category given is named in the text. */
  lemma SummaryTextMentions(n: nat, types: seq<string>, categories: seq<string>)
    ensures forall t :: t in types ==> Contains(SummaryText(n, types, categories), t)
    ensures forall c :: c in categories ==> Contains(SummaryText(n, types, categories), c)
  {
    var head := "Found " + NatToString(n) + " relevant document" + Plural(n);
    forall t | t in types ensures Contains(SummaryText(n, types, categories), t) {
      var i :| 0 <= i < |types| && types[i] == t;
      JoinContainsPart(types, ", ", i);
      ContainsWithin(" (", Join(types, ", "), ")", t);
      ContainsWithin(head, TypesPart(types), CategoriesPart(categories), t);
    }
    forall c | c in categories ensures Contains(SummaryText(n, types, categories), c) {
      var i :| 0 <= i < |categories| && categories[i] == c;
      JoinContainsPart(categories, ", ", i);
      ContainsWithin(" from categories: ", Join(categories, ", "), "", c);
      assert " from categories: " + Join(categories, ", ") + "" == CategoriesPart(categories);
      ContainsWithin(head + TypesPart(types), CategoriesPart(categories), "", c);
      assert head + TypesPart(types) + CategoriesPart(categories) + "" == SummaryText(n, types, categories);
    }
  }

  /** The summary counts the results and names the type of every result and every present
      category. */
  lemma SummaryMentions(results: seq<CmsResult>, k: nat)
    requires k < |results|
    ensures ("Found " + NatToString(|results|) + " relevant document") <= GenerateContextSummary(results)
    ensures Contains(GenerateContextSummary(results), ContentTypeName(results[k].kind))
    ensures Present(results[k].category) ==>
      Contains(GenerateContextSummary(results), results[k].category.value)
  {
    var types, categories := Dedup(TypeNames(results)), Dedup(CategoryNames(results));
    SummaryTextOpening(|results|, types, categories);
    SummaryTextMentions(|results|, types, categories);
    CategoryNamesExact(results);
    assert TypeNames(results)[k] == ContentTypeName(results[k].kind);
  }
}
