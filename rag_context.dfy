/** The result assembly of `getRAGContext` and `getAdvancedRAGContext`, `buildRAGPrompt` and
    `processMessageWithRAG` in lib/ai/rag.ts. The user's search is a `Searcher` that already
    knows the user; the percentage text `(x * 100).toFixed(1)` is the `percent` parameter. */
module RagContext {
  import opened Strings
  import opened Collections
  import opened Schema
  import opened Cms
  import opened RagSettings
  import opened RagQuery
  import opened RagExcerpts
  import opened RagSearch

  /** One entry of `sources`. */
  datatype Source = Source(
    id: string, title: string, kind: ContentType, category: Option<string>, tags: seq<string>,
    similarity: real, relevantExcerpts: seq<string>)

  datatype RAGContext = RAGContext(
    hasRelevantContent: bool, context: string, contextSummary: string, sources: seq<Source>,
    totalSources: nat, averageSimilarity: real)

  const NoContentSummary := "No relevant content found in knowledge base"

  /** The answer when nothing relevant was found. */
  const NoContext := RAGContext(false, "", NoContentSummary, [], 0, 0.0)

  // ---------------------------------------------------------------------
  // One result

  /** The metadata parts that are present: category, tags, similarity. */
  function MetadataParts(result: CmsResult, percent: real -> string): (r: seq<string>)
    ensures 1 <= |r| <= 3
    ensures r[|r| - 1] == "Similarity: " + percent(result.similarity) + "%"
  {
    (if Present(result.category) then ["Category: " + result.category.value] else [])
    + (if result.tags.Some? && |result.tags.value| > 0 then ["Tags: " + Join(result.tags.value, ", ")] else [])
    + ["Similarity: " + percent(result.similarity) + "%"]
  }

  /** The context block of one result. */
  function ContextPart(result: CmsResult, excerpts: seq<string>, percent: real -> string): string
  {
    "\U{1F4C4} **" + result.title + "** (" + ContentTypeName(result.kind) + ")\n"
    + Join(MetadataParts(result, percent), " | ") + "\nSummary: "
    + SummarizeContent(excerpts, result.title)
  }

  /** The block opens with the result's title. */
  lemma ContextPartNamesTitle(result: CmsResult, excerpts: seq<string>, percent: real -> string)
    ensures Contains(ContextPart(result, excerpts, percent), result.title)
  {
    var rest := "** (" + ContentTypeName(result.kind) + ")\n"
      + Join(MetadataParts(result, percent), " | ") + "\nSummary: "
      + SummarizeContent(excerpts, result.title);
    ContainsInConcat("\U{1F4C4} **", result.title, rest);
    assert "\U{1F4C4} **" + result.title + rest == ContextPart(result, excerpts, percent);
  }

  /** The `sources` entry of one result: a falsy category is dropped, missing tags are empty. */
  function SourceOf(result: CmsResult, excerpts: seq<string>): (s: Source)
    ensures s.id == result.id && s.title == result.title && s.kind == result.kind
    ensures s.similarity == result.similarity && s.relevantExcerpts == excerpts
    ensures s.category.Some? <==> Present(result.category)
    ensures s.category.Some? ==> s.category == result.category
    ensures s.tags == if result.tags.Some? then result.tags.value else []
  {
    Source(result.id, result.title, result.kind,
           if Present(result.category) then result.category else None,
           if result.tags.Some? then result.tags.value else [],
           result.similarity, excerpts)
  }

  // ---------------------------------------------------------------------
  // All results

  const ContextSeparator := "\n\n\U{2500}\U{2500}\U{2500}\U{2500}\U{2500}\U{2500}\U{2500}\U{2500}\U{2500}\U{2500}\U{2500}\U{2500}\U{2500}\U{2500}\U{2500}\U{2500}\U{2500}\U{2500}\U{2500}\U{2500}\U{2500}\U{2500}\U{2500}\U{2500}\U{2500}\U{2500}\U{2500}\U{2500}\U{2500}\U{2500}\U{2500}\U{2500}\U{2500}\U{2500}\U{2500}\U{2500}\U{2500}\U{2500}\U{2500}\U{2500}\U{2500}\U{2500}\U{2500}\U{2500}\U{2500}\U{2500}\U{2500}\U{2500}\U{2500}\U{2500}\U{2500}\U{2500}\U{2500}\U{2500}\U{2500}\U{2500}\U{2500}\U{2500}\U{2500}\U{2500}\U{2500}\U{2500}\U{2500}\U{2500}\U{2500}\U{2500}\U{2500}\U{2500}\U{2500}\U{2500}\U{2500}\U{2500}\U{2500}\U{2500}\U{2500}\U{2500}\U{2500}\U{2500}\U{2500}\U{2500}\n\n"

  function SumSimilarity(results: seq<CmsResult>): real
  {
    if results == [] then 0.0
    else SumSimilarity(results[..|results| - 1]) + results[|results| - 1].similarity
  }

  function Average(results: seq<CmsResult>): real
  {
    if results == [] then 0.0 else SumSimilarity(results) / |results| as real
  }

  /** The sum lies between `n` times the least and `n` times the greatest similarity. */
  lemma {:induction false} SumBounds(results: seq<CmsResult>, lo: real, hi: real)
    requires forall i :: 0 <= i < |results| ==> lo <= results[i].similarity <= hi
    ensures lo * |results| as real <= SumSimilarity(results) <= hi * |results| as real
  {
    if results != [] {
      var init := results[..|results| - 1];
      SumBounds(init, lo, hi);
      assert forall i :: 0 <= i < |init| ==> init[i] == results[i];
      var n := |init| as real;
      assert lo * (n + 1.0) == lo * n + lo && hi * (n + 1.0) == hi * n + hi;
    }
  }

  /** The excerpts of every result for the user's message. */
  function AllExcerpts(results: seq<CmsResult>, userMessage: string, settings: RAGSettings)
    : (r: seq<seq<string>>)
    ensures |r| == |results|
  {
    seq(|results|, i requires 0 <= i < |results| =>
      Excerpts(results[i].content, userMessage, ActualMaxExcerpts(None, settings)))
  }

  function ContextParts(results: seq<CmsResult>, excerpts: seq<seq<string>>, percent: real -> string)
    : (r: seq<string>)
    requires |excerpts| == |results|
    ensures |r| == |results|
    ensures forall i :: 0 <= i < |r| ==> r[i] == ContextPart(results[i], excerpts[i], percent)
  {
    seq(|results|, i requires 0 <= i < |results| => ContextPart(results[i], excerpts[i], percent))
  }

  function Sources(results: seq<CmsResult>, excerpts: seq<seq<string>>): (r: seq<Source>)
    requires |excerpts| == |results|
    ensures |r| == |results|
    ensures forall i :: 0 <= i < |r| ==> r[i] == SourceOf(results[i], excerpts[i])
  {
    seq(|results|, i requires 0 <= i < |results| => SourceOf(results[i], excerpts[i]))
  }

  /** The context built from the results, the excerpts of each and the summary. */
  function ContextFrom(results: seq<CmsResult>, excerpts: seq<seq<string>>, summary: string,
                       average: real, percent: real -> string): (r: RAGContext)
    requires |excerpts| == |results|
    ensures r.hasRelevantContent <==> results != []
    ensures r.totalSources == |r.sources| == |results|
    ensures forall i :: 0 <= i < |r.sources| ==> r.sources[i].id == results[i].id
  {
    if |results| == 0 then NoContext
    else
      RAGContext(
        true,
        Join(ContextParts(results, excerpts, percent), ContextSeparator),
        summary,
        Sources(results, excerpts),
        |results|,
        average)
  }

  /** The context both `getRAGContext` and `getAdvancedRAGContext` build from their results. */
  function ContextOf(results: seq<CmsResult>, userMessage: string, settings: RAGSettings,
                     percent: real -> string): (r: RAGContext)
    ensures r.hasRelevantContent <==> results != []
    ensures r.totalSources == |r.sources| == |results|
  {
    ContextFrom(results, AllExcerpts(results, userMessage, settings), GenerateContextSummary(results),
                Average(results), percent)
  }

  /** No results give the empty answer; otherwise there is one source per result, in result
      order, carrying its id, title, type and similarity. */
  lemma ContextTotals(results: seq<CmsResult>, excerpts: seq<seq<string>>, summary: string,
                      average: real, percent: real -> string)
    requires |excerpts| == |results|
    ensures var c := ContextFrom(results, excerpts, summary, average, percent);
      && (results == [] ==> c == NoContext)
      && (results != [] ==> c.hasRelevantContent && c.totalSources == |c.sources| == |results|)
      && (results != [] ==> c.averageSimilarity == average && c.contextSummary == summary)
      && (forall i :: 0 <= i < |c.sources| ==>
            c.sources[i].id == results[i].id && c.sources[i].title == results[i].title
            && c.sources[i].kind == results[i].kind && c.sources[i].similarity == results[i].similarity)
  {
  }

  /** The average of results that all lie between two bounds lies between them too. */
  lemma AverageWithin(results: seq<CmsResult>, lo: real, hi: real)
    requires results != []
    requires forall i :: 0 <= i < |results| ==> lo <= results[i].similarity <= hi
    ensures lo <= Average(results) <= hi
  {
    var n := |results| as real;
    var sum := SumSimilarity(results);
    SumBounds(results, lo, hi);
    assert sum / n * n == sum;
    if sum / n < lo {
      assert sum / n * n < lo * n;
    }
    if sum / n > hi {
      assert sum / n * n > hi * n;
    }
  }

  /** The sources keep the results' order, similarities and ids. */
  lemma SourcesFollowResults(results: seq<CmsResult>, excerpts: seq<seq<string>>, summary: string,
                             average: real, percent: real -> string, lo: real)
    requires |excerpts| == |results|
    ensures var c := ContextFrom(results, excerpts, summary, average, percent);
      && c.totalSources == |results|
      && (SortedDesc(results, SimilarityOf) ==>
            forall i, j :: 0 <= i < j < |c.sources| ==> c.sources[i].similarity >= c.sources[j].similarity)
      && (DistinctBy(results, IdOf) ==>
            forall i, j :: 0 <= i < j < |c.sources| ==> c.sources[i].id != c.sources[j].id)
      && ((forall i :: 0 <= i < |results| ==> lo <= results[i].similarity) ==>
            forall i :: 0 <= i < |c.sources| ==> lo <= c.sources[i].similarity)
  {
    var c := ContextFrom(results, excerpts, summary, average, percent);
    if DistinctBy(results, IdOf) {
      forall i, j | 0 <= i < j < |c.sources| ensures c.sources[i].id != c.sources[j].id {
        assert IdOf(results[i]) != IdOf(results[j]);
      }
    }
  }

  /** The context names the title of every result. */
  lemma ContextNamesEveryTitle(results: seq<CmsResult>, excerpts: seq<seq<string>>, summary: string,
                               average: real, percent: real -> string, k: nat)
    requires |excerpts| == |results| && k < |results|
    ensures Contains(ContextFrom(results, excerpts, summary, average, percent).context, results[k].title)
  {
    var parts := ContextParts(results, excerpts, percent);
    JoinContainsPart(parts, ContextSeparator, k);
    ContextPartNamesTitle(results[k], excerpts[k], percent);
    ContainsTransitive(Join(parts, ContextSeparator), parts[k], results[k].title);
  }

  // ---------------------------------------------------------------------
  // The two retrieval entry points

  /** `getRAGContext(userMessage, userId, threshold, maxResults)`; the defaults are 0.65 and 5. */
  function GetRAGContext(search: Searcher, userMessage: string, threshold: real, maxResults: int,
                         settings: RAGSettings, percent: real -> string): (r: RAGContext)
    ensures r.hasRelevantContent <==> search(userMessage, maxResults, threshold) != []
    ensures r.totalSources == |search(userMessage, maxResults, threshold)|
  {
    ContextOf(search(userMessage, maxResults, threshold), userMessage, settings, percent)
  }

  /** With a sound search the basic context holds at most `maxResults` sources, all at or above
      the threshold, best first. */
  lemma GetRAGContextSources(search: Searcher, userMessage: string, threshold: real, maxResults: int,
                             settings: RAGSettings, percent: real -> string)
    requires Sound(search)
    ensures var c := GetRAGContext(search, userMessage, threshold, maxResults, settings, percent);
      && (maxResults >= 0 ==> c.totalSources <= maxResults)
      && (forall i :: 0 <= i < |c.sources| ==> threshold <= c.sources[i].similarity)
      && (forall i, j :: 0 <= i < j < |c.sources| ==> c.sources[i].similarity >= c.sources[j].similarity)
  {
    var results := search(userMessage, maxResults, threshold);
    var excerpts, summary := AllExcerpts(results, userMessage, settings), GenerateContextSummary(results);
    SourcesFollowResults(results, excerpts, summary, Average(results), percent, threshold);
    assert GetRAGContext(search, userMessage, threshold, maxResults, settings, percent)
        == ContextFrom(results, excerpts, summary, Average(results), percent);
  }

  /** `getAdvancedRAGContext`: the settings read from the store fill in the missing threshold
      and limit; the message is expanded and searched with the dynamic threshold. */
  method GetAdvancedRAGContext(store: SettingsStore, search: Searcher, userMessage: string,
                               threshold: Option<real>, maxResults: Option<int>,
                               percent: real -> string) returns (context: RAGContext)
    ensures var actualThreshold := if threshold.Some? then threshold.value else store.current.threshold;
      var actualMaxResults := if maxResults.Some? then maxResults.value else store.current.maxResults;
      context == ContextOf(
        DynamicSearch(search, Dedup(RawExpansion(userMessage)), actualMaxResults,
                      Thresholds(actualThreshold, store.current.minThreshold)),
        userMessage, store.current, percent)
  {
    var settings := store.GetRAGSettings();
    var actualThreshold := if threshold.Some? then threshold.value else settings.threshold;
    var actualMaxResults := if maxResults.Some? then maxResults.value else settings.maxResults;
    var expandedQueries := ExpandQuery(userMessage);
    var combinedResults := SearchWithDynamicThreshold(search, expandedQueries, actualMaxResults,
                                                      actualThreshold, settings.minThreshold);
    context := ContextOf(combinedResults, userMessage, settings, percent);
  }

  /** The advanced context has each document once, best first, within the limit, whatever
      the expanded queries. */
  lemma AdvancedContextSources(search: Searcher, queries: seq<string>, userMessage: string,
                               actualThreshold: real, actualMaxResults: int, settings: RAGSettings,
                               percent: real -> string)
    ensures var results := DynamicSearch(search, queries, actualMaxResults,
                                         Thresholds(actualThreshold, settings.minThreshold));
      var c := ContextOf(results, userMessage, settings, percent);
      && (actualMaxResults >= 0 ==> c.totalSources <= actualMaxResults)
      && (forall i, j :: 0 <= i < j < |c.sources| ==> c.sources[i].id != c.sources[j].id)
      && (forall i, j :: 0 <= i < j < |c.sources| ==> c.sources[i].similarity >= c.sources[j].similarity)
  {
    DynamicSearchFacts(search, queries, actualMaxResults, actualThreshold, settings.minThreshold);
    var results := DynamicSearch(search, queries, actualMaxResults,
                                 Thresholds(actualThreshold, settings.minThreshold));
    var excerpts, summary := AllExcerpts(results, userMessage, settings), GenerateContextSummary(results);
    SourcesFollowResults(results, excerpts, summary, Average(results), percent, 0.0);
    assert ContextOf(results, userMessage, settings, percent)
        == ContextFrom(results, excerpts, summary, Average(results), percent);
  }

  // ---------------------------------------------------------------------
  // The prompt

  /** One line of the context metadata. */
  function SourceLine(s: Source, percent: real -> string): string
  {
    "\U{2022} \"" + s.title + "\" (" + ContentTypeName(s.kind)
    + (if Present(s.category) then ", " + s.category.value else "") + ") - "
    + percent(s.similarity) + "% match"
  }

  function SourceLines(sources: seq<Source>, percent: real -> string): (r: seq<string>)
    ensures |r| == |sources|
  {
    seq(|sources|, i requires 0 <= i < |sources| => SourceLine(sources[i], percent))
  }

  /** `ragContext.sources[0]?.title` inside a template: `undefined` when there are no sources. */
  function FirstTitle(sources: seq<Source>): string
  {
    if |sources| > 0 then sources[0].title else "undefined"
  }

  const IntroText := "\n\U{1F4DA} KNOWLEDGE BASE CONTEXT ("
  const AfterSummaryText := "):\n\n"
  const AfterContextText := "\n\n---\n\n\U{1F4CA} CONTEXT METADATA:\n"
  const AverageText := "\nAverage relevance: "
  const RulesText := "%\n\n---\n\n\U{1F3AF} IMPORTANT INSTRUCTIONS FOR USING THIS CONTEXT:\n"
    + "1. **PRIMARY SOURCE**: Use the above context as your PRIMARY source of information\n"
    + "2. **ATTRIBUTION**: Always cite specific documents when referencing them (e.g., \"According to your document '"
  const ClosingText := "'...\")\n"
    + "3. **RELEVANCE**: Focus on the most relevant excerpts and information\n"
    + "4. **SUPPLEMENTATION**: If context doesn't fully answer the question, supplement with general knowledge but clearly distinguish between sources\n"
    + "5. **TRANSPARENCY**: Be explicit about what comes from their knowledge base vs. general knowledge\n"
    + "6. **ACCURACY**: If there are contradictions between documents, acknowledge them and ask for clarification\n\n"

  /** The part of the instruction block after the summary. */
  function AfterSummary(context: string, sourcesInfo: string, average: string, firstTitle: string): string
  {
    AfterSummaryText + context + AfterContext(sourcesInfo, average, firstTitle)
  }

  /** The part of the instruction block after the context. */
  function AfterContext(sourcesInfo: string, average: string, firstTitle: string): string
  {
    AfterContextText + sourcesInfo + AverageText + average + RulesText + firstTitle + ClosingText
  }

  /** The instruction block around its variable parts. */
  function Instructions(summary: string, context: string, sourcesInfo: string, average: string,
                        firstTitle: string): string
  {
    IntroText + summary + AfterSummary(context, sourcesInfo, average, firstTitle)
  }

  /** The block carries the summary and the context whole. */
  lemma InstructionsCarry(summary: string, context: string, sourcesInfo: string, average: string,
                          firstTitle: string)
    ensures Contains(Instructions(summary, context, sourcesInfo, average, firstTitle), summary)
    ensures Contains(Instructions(summary, context, sourcesInfo, average, firstTitle), context)
  {
    var after := AfterSummary(context, sourcesInfo, average, firstTitle);
    ContainsInConcat(IntroText, summary, after);
    ContainsInConcat(AfterSummaryText, context, AfterContext(sourcesInfo, average, firstTitle));
    ContainsWithin(IntroText + summary, after, "", context);
    assert IntroText + summary + after + "" == Instructions(summary, context, sourcesInfo, average, firstTitle);
  }

  /** The instruction block appended to the prompt. */
  function RagInstructions(ctx: RAGContext, percent: real -> string): (r: string)
    ensures Contains(r, ctx.contextSummary) && Contains(r, ctx.context)
  {
    InstructionsCarry(ctx.contextSummary, ctx.context, Join(SourceLines(ctx.sources, percent), "\n"),
                      percent(ctx.averageSimilarity), FirstTitle(ctx.sources));
    Instructions(ctx.contextSummary, ctx.context, Join(SourceLines(ctx.sources, percent), "\n"),
                 percent(ctx.averageSimilarity), FirstTitle(ctx.sources))
  }

  /** `buildRAGPrompt`: the prompt itself without relevant content, else the prompt, a blank
      line and the instruction block. */
  function BuildRAGPrompt(originalPrompt: string, ctx: RAGContext, userMessage: string,
                          percent: real -> string): (r: string)
    ensures !ctx.hasRelevantContent ==> r == originalPrompt
    ensures ctx.hasRelevantContent ==> originalPrompt + "\n\n" <= r
  {
    if !ctx.hasRelevantContent then originalPrompt
    else originalPrompt + "\n\n" + RagInstructions(ctx, percent)
  }

  /** With relevant content the prompt carries the summary and the whole context. */
  lemma PromptCarriesContext(originalPrompt: string, ctx: RAGContext, userMessage: string,
                             percent: real -> string)
    requires ctx.hasRelevantContent
    ensures Contains(BuildRAGPrompt(originalPrompt, ctx, userMessage, percent), ctx.contextSummary)
    ensures Contains(BuildRAGPrompt(originalPrompt, ctx, userMessage, percent), ctx.context)
  {
    var sourcesInfo := Join(SourceLines(ctx.sources, percent), "\n");
    var average, first := percent(ctx.averageSimilarity), FirstTitle(ctx.sources);
    var block := Instructions(ctx.contextSummary, ctx.context, sourcesInfo, average, first);
    InstructionsCarry(ctx.contextSummary, ctx.context, sourcesInfo, average, first);
    ContainsWithin(originalPrompt + "\n\n", block, "", ctx.contextSummary);
    ContainsWithin(originalPrompt + "\n\n", block, "", ctx.context);
    assert originalPrompt + "\n\n" + block + "" == BuildRAGPrompt(originalPrompt, ctx, userMessage, percent);
  }

  /** `processMessageWithRAG`: the advanced or the basic context (with its defaults 0.65 and
      5), then the prompt built from it. */
  method ProcessMessageWithRAG(store: SettingsStore, search: Searcher, originalPrompt: string,
                               userMessage: string, useAdvanced: bool, percent: real -> string)
    returns (prompt: string, context: RAGContext)
    ensures useAdvanced ==> context == ContextOf(
      DynamicSearch(search, Dedup(RawExpansion(userMessage)), store.current.maxResults,
                    Thresholds(store.current.threshold, store.current.minThreshold)),
      userMessage, store.current, percent)
    ensures !useAdvanced ==> context == GetRAGContext(search, userMessage, 0.65, 5, store.current, percent)
    ensures prompt == BuildRAGPrompt(originalPrompt, context, userMessage, percent)
    ensures !context.hasRelevantContent ==> prompt == originalPrompt
  {
    if useAdvanced {
      context := GetAdvancedRAGContext(store, search, userMessage, None, None, percent);
    } else {
      var settings := store.GetRAGSettings();
      context := GetRAGContext(search, userMessage, 0.65, 5, settings, percent);
    }
    prompt := BuildRAGPrompt(originalPrompt, context, userMessage, percent);
  }
}
