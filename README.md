# A verified model of the immai retrieval engine and its decision rules

immai is a Next.js chat application. It answers from a user's own knowledge base ("CMS
content"). This project models in Dafny the logic at its core.

- **Retrieval-augmented generation** (`lib/ai/rag.ts`). A user message is normalised and
  expanded into query variants. Each variant is searched by embedding similarity. The
  controller lowers the threshold step by step until at least two documents are found.
  It merges, ranks and cuts the hits. It extracts the excerpts that overlap the query and
  summarises the results. Last, it appends an instruction block to the system prompt.
- **The embedding search** (`lib/ai/cms.ts`). It scores every stored embedding against the
  query, skips rows it cannot score, applies the threshold, sorts and cuts. It also covers
  the report of the batch re-embedding.
- **The embedding helpers** (`lib/ai/embeddings.ts`): text preparation and the cosine
  similarity.
- **A standalone BM25 ranker** (`lib/ai/bm25.ts`): tokenizer, title weighting, index and
  search.
- **The small decision rules**:
  - the in-memory retrieval-settings store (`lib/rag-settings.ts`);
  - the session guards (`lib/auth-helpers.ts`);
  - the user-row updates after Stripe events (`lib/stripe.ts`);
  - the request middleware (`middleware.ts`);
  - the guest e-mail pattern and the memoised dummy password (`lib/constants.ts`);
  - the marketplace listing filters (`app/marketplace/page.tsx`).

## How the model is built

- **Modules.** There is one module per source file. `rag.ts` is split into four modules:
  - `RagQuery`: normalisation and expansion;
  - `RagExcerpts`: excerpts and summaries;
  - `RagSearch`: the dynamic-threshold controller;
  - `RagContext`: result assembly, the two context builders and the prompt.
- **Shared modules.**
  - `Strings` holds the JavaScript string operations the code relies on: `\s`, `trim`,
    `toLowerCase`, `includes`, `split` and `join`.
  - `Collections` holds the array operations: `slice(0, end)` including negative ends,
    `[...new Set(xs)]`, `filter`, and a stable descending sort like `Array.prototype.sort`.
  - `Schema` holds the enumerations of `lib/db/schema.ts`.
- **Loops and mutation become imperative code.** Each such method is proved equal to a
  specification function, and the properties are proved about that function. This covers:
  - the pushes of `expandQuery`;
  - the scoring `forEach` of `extractRelevantExcerpts`;
  - the `Map` loop of `searchWithDynamicThreshold`;
  - the accumulation loop of `cosineSimilarity`;
  - the `batchUpdateEmbeddings` loop;
  - the `buildIndex` loops.
- **Objects that update their own fields become classes:**
  - `BM25` and `BM25Search`;
  - the settings store;
  - the dummy-password cache;
  - the user and payment tables of `lib/stripe.ts`.
- **External effects are inputs or parameters:**
  - the OpenAI embedding of the query, and the rows the database returns (`None` when the
    call fails);
  - `JSON.parse` of a stored embedding;
  - `Math.sqrt`, `Math.log` and the percentage formatting `toFixed`;
  - `encodeURIComponent`;
  - the result of `getToken`;
  - the session `auth()` resolves;
  - the clock, and the random password generator.
- **The per-query search.** The dynamic-threshold controller receives the search as a
  function (`Searcher`). `RagSearch.CmsSearchSound` proves that the `findSimilarContent`
  pipeline meets the promises the controller relies on.
- **Numbers.** Counts are unbounded integers. Similarities and scores are exact reals. The
  NaN of a zero vector is a value of its own, and it never passes a threshold.

Where the code and the design documents disagree, the model follows the code:
- `extractRelevantExcerpts` counts a query word once for each time it occurs in the query,
  not once per distinct word.
- A negative `maxExcerpts` does not yield "at most 8". JavaScript's `slice(0, end)` with a
  negative end drops elements from the back instead. The bound `min(max, 8)` is proved for
  non-negative maxima only.

## Model

| member | source | states |
|---|---|---|
| Strings.LowerChar | lib/ai/rag.ts:35 | lower-casing leaves no ASCII capital, maps `A`–`Z` to `a`–`z` and keeps the other ASCII characters; the model's partial case table also keeps non-ASCII characters outside ASCII (JavaScript maps U+212A KELVIN SIGN to `k` and U+0130 to `i` plus a combining dot, which the model does not) |
| Strings.ToLower | lib/ai/bm25.ts:23 | `toLowerCase` keeps the length and maps every character by `LowerChar` |
| Strings.UpperChar | lib/ai/embeddings.ts:72 | `toUpperCase` maps `a`–`z` to `A`–`Z`; the model keeps every other character, which matches JavaScript only on ASCII |
| Strings.ToUpper | lib/ai/embeddings.ts:72 | `toUpperCase` keeps the length and maps every character by `UpperChar` |
| Strings.TrimStart | lib/ai/embeddings.ts:73 | the result is a suffix of the input; everything removed is whitespace; it does not start with whitespace |
| Strings.TrimEnd | lib/ai/embeddings.ts:73 | the result is a prefix of the input; everything removed is whitespace; it does not end with whitespace |
| Strings.Trim | lib/ai/embeddings.ts:73 | `trim` never lengthens, and the result is empty or starts and ends with non-whitespace |
| Strings.TrimSpaceAround | lib/ai/embeddings.ts:73 | the trimmed text is a slice of the input with only whitespace before and after it |
| Strings.SliceBetween | lib/ai/embeddings.ts:73 | cutting a prefix and then a suffix that both satisfy a predicate leaves a slice padded by that predicate |
| Strings.ContainsAt | lib/ai/rag.ts:38-43 | an occurrence at some index makes `includes` true |
| Strings.ContainsWitness | lib/ai/rag.ts:38-43 | `includes` true gives an index where the substring occurs |
| Strings.ContainsInConcat | lib/ai/rag.ts:214 | the middle piece of a concatenation is contained in it |
| Strings.ContainsWithin | lib/ai/rag.ts:214 | a substring of the middle piece is a substring of the whole |
| Strings.ContainsTransitive | lib/ai/rag.ts:290-292 | `includes` is transitive |
| Strings.SplitOn | lib/ai/rag.ts:96 | `split` gives at least one piece, and no piece holds a separator or a character foreign to the input |
| Strings.LongWords | lib/ai/rag.ts:56-57 | every word kept is longer than two characters, without whitespace, made of the input's characters |
| Strings.JoinContainsPart | lib/ai/rag.ts:214 | every part of a `join` is contained in the joined text |
| Strings.Repeat | lib/ai/rag.ts:214 | `repeat(n)` has length n and only that character |
| Strings.NatToString | lib/ai/rag.ts:146 | the decimal rendering of a count is non-empty and made of digits |
| Collections.SliceEnd | lib/ai/cms.ts:138 | how many elements `slice(0, end)` keeps, for non-negative and for negative ends |
| Collections.SlicePrefix | lib/ai/cms.ts:138 | `slice(0, end)` is the prefix of that many elements |
| Collections.Dedup | lib/ai/rag.ts:86 | `[...new Set(s)]` keeps exactly the values of `s`, starts with `s[0]` and never lengthens |
| Collections.DedupOrder | lib/ai/rag.ts:86 | `[...new Set(s)]` keeps first-occurrence order: a value listed before another occurs in `s` before any occurrence of the other |
| Collections.DedupDistinct | lib/ai/rag.ts:86 | `[...new Set(s)]` holds no value twice |
| Collections.DedupOfDistinct | lib/ai/rag.ts:86 | a list without duplicates survives `[...new Set(s)]` unchanged |
| Collections.Filter | lib/ai/cms.ts:130-136 | `filter` keeps exactly the elements that satisfy the predicate |
| Collections.FilterSubsequence | app/marketplace/page.tsx:44-67 | `filter` keeps the order of the elements it keeps |
| Collections.FilterAll | app/marketplace/page.tsx:44-67 | a predicate every element satisfies keeps the whole list |
| Collections.FilterSame | app/marketplace/page.tsx:44-67 | predicates that agree keep the same list |
| Collections.FilterTwice | app/marketplace/page.tsx:55-67 | two filters in a row equal one filter by the conjunction |
| Collections.FilterSplit | app/marketplace/page.tsx:70-72 | a predicate and its negation split the list's length |
| Collections.InsertDesc | lib/ai/cms.ts:137 | inserting adds exactly one element |
| Collections.InsertDescPerm | lib/ai/cms.ts:137 | inserting adds `x` and keeps every element |
| Collections.InsertDescBelow | lib/ai/cms.ts:137 | inserting below a bound keeps every key below it |
| Collections.ConsSorted | lib/ai/cms.ts:137 | a head no smaller than the rest of a sorted list keeps it sorted |
| Collections.InsertDescSorted | lib/ai/cms.ts:137 | inserting into a sorted list keeps it sorted |
| Collections.SortDesc | lib/ai/cms.ts:137 | the descending sort keeps the length and orders by non-increasing key |
| Collections.SortDescPerm | lib/ai/cms.ts:137 | the sort is a permutation of its input |
| Collections.SortedMembers | lib/ai/cms.ts:137 | the sort keeps exactly the input's members |
| Collections.SortedPrefix | lib/ai/cms.ts:137-138 | cutting a sorted list keeps it sorted |
| Collections.WithKeyConcat | lib/ai/cms.ts:137 | the elements with one key distribute over concatenation |
| Collections.WithKeyNone | lib/ai/cms.ts:137 | a list without that key has no elements with it |
| Collections.WithKeySingle | lib/ai/cms.ts:137 | a single element has that key or not |
| Collections.InsertDescWithKeyFront | lib/ai/cms.ts:137 | an element placed in front of smaller keys comes after, among equal keys, everything before it |
| Collections.InsertDescWithKey | lib/ai/cms.ts:137 | insertion puts `x` after the elements that share its key |
| Collections.SortDescStable | lib/ai/cms.ts:137 | the sort is stable: elements with equal keys keep their input order |
| Collections.InsertDescDistinct | lib/ai/rag.ts:333 | inserting an element with a new id keeps the ids distinct |
| Collections.SortDescDistinct | lib/ai/rag.ts:333 | sorting keeps the ids distinct |
| RagQuery.FirstIndex | lib/ai/rag.ts:38-43 | the index of the first table key the text contains; none when no key occurs |
| RagQuery.NormalizeQuery | lib/ai/rag.ts:35-45 | the expansion of the first key found in the lowercased, trimmed query; the query itself when no key occurs |
| RagQuery.ContainsPart | lib/ai/rag.ts:38-43 | a text containing `x + b + y` contains `b` |
| RagQuery.LongerKeyShadowed | lib/ai/rag.ts:24-33 | the key `bao nhiêu năm` is never the first match, because the earlier key `năm` is in it |
| RagQuery.Bigrams | lib/ai/rag.ts:64-68 | one bigram per adjacent pair of words, joined by a space |
| RagQuery.Translated | lib/ai/rag.ts:72-84 | at most one translation per table entry |
| RagQuery.TranslatedMembers | lib/ai/rag.ts:72-84 | the translations added are exactly the values whose key occurs |
| RagQuery.AssembleLayout | lib/ai/rag.ts:52-84 | the queries are the query, its normalisation, the keywords (at least two words), the bigrams (more than two), then the translations |
| RagQuery.PushBigrams | lib/ai/rag.ts:64-68 | the bigram loop appends exactly the bigrams |
| RagQuery.PushWordVariants | lib/ai/rag.ts:59-69 | keywords, then bigrams, appended only for at least two and more than two words |
| RagQuery.PushTranslations | lib/ai/rag.ts:72-84 | the translation loop appends exactly the translations, in table order |
| RagQuery.ExpandQuery | lib/ai/rag.ts:48-89 | the result is the deduplicated list of the collected variants |
| RagQuery.ExpansionShape | lib/ai/rag.ts:52-86 | the expansion starts with the query, holds no duplicates, and holds exactly the collected variants |
| RagQuery.ExpansionOrder | lib/ai/rag.ts:86 | the deduplicated variants keep the order in which they were first collected |
| RagQuery.FewWordsNoVariants | lib/ai/rag.ts:59-69 | at most one keyword adds no keywords and no bigrams |
| RagExcerpts.Sentences | lib/ai/rag.ts:96 | every sentence kept is a piece between sentence ends whose trim is longer than 20 |
| RagExcerpts.Score | lib/ai/rag.ts:101-107 | the score never exceeds the number of query words |
| RagExcerpts.ScorePositive | lib/ai/rag.ts:101-107 | a sentence scores above zero exactly when some query word occurs in it |
| RagExcerpts.SentenceScore | lib/ai/rag.ts:101-107 | the `forEach` computes the score |
| RagExcerpts.ScoreAll | lib/ai/rag.ts:99-110 | one scored sentence per sentence, in order |
| RagExcerpts.Texts | lib/ai/rag.ts:116 | the texts of the ranked sentences, in order |
| RagExcerpts.ScoreSentences | lib/ai/rag.ts:99-110 | the scoring `map` computes the scored sentences |
| RagExcerpts.ExtractRelevantExcerpts | lib/ai/rag.ts:91-120 | the excerpts are the positive sentences, best first, cut to `min(max, 8)` |
| RagExcerpts.Excerpts | lib/ai/rag.ts:91-120 | never more excerpts than sentences |
| RagExcerpts.ExcerptsBound | lib/ai/rag.ts:93-115 | at most `min(max, 8)` excerpts for a non-negative maximum, and never more than the sentences |
| RagExcerpts.RankedSorted | lib/ai/rag.ts:113 | the excerpts come in non-increasing score order |
| RagExcerpts.RankedFromSentences | lib/ai/rag.ts:99-115 | every ranked entry is a scored sentence with a positive score |
| RagExcerpts.RankedRelevant | lib/ai/rag.ts:99-116 | every excerpt is the trim of a sentence that contains a query word |
| RagExcerpts.ExcerptsRelevant | lib/ai/rag.ts:96-116 | every excerpt is a trimmed sentence piece longer than 20 characters that contains a query word longer than 2 |
| RagExcerpts.SummarizeContent | lib/ai/rag.ts:122-135 | empty without excerpts; else the first excerpt, or its first 147 characters and `...` when longer than 150; never longer than 150 |
| RagExcerpts.TypeNames | lib/ai/rag.ts:140 | the type name of each result, in order |
| RagExcerpts.CategoryNames | lib/ai/rag.ts:141 | the categories kept are non-empty and no more than the results |
| RagExcerpts.CategoryNamesExact | lib/ai/rag.ts:141 | the categories kept are exactly the present categories of the results |
| RagExcerpts.SummaryTextOpening | lib/ai/rag.ts:146 | the summary opens with the count, followed by `s` exactly when there is more than one |
| RagExcerpts.SummaryTextMentions | lib/ai/rag.ts:146-154 | the summary names every type and every category |
| RagExcerpts.GenerateContextSummary | lib/ai/rag.ts:137-158 | the summary opens with the count of results, followed by `s` exactly when there is more than one |
| RagExcerpts.SummaryMentions | lib/ai/rag.ts:137-158 | the summary counts the results and names the type and the category of each |
| RagSearch.CmsSearchSound | lib/ai/cms.ts:130-138 | the `findSimilarContent` pipeline answers best first, within the limit, at or above the threshold |
| RagSearch.IndexOfId | lib/ai/rag.ts:315-320 | the map lookup by document id finds the entry with that id, or proves there is none |
| RagSearch.Hits | lib/ai/rag.ts:310-312 | one result list per expanded query, in query order |
| RagSearch.MergeResults | lib/ai/rag.ts:314-321 | the loop over one query's results computes the upsert of each in turn |
| RagSearch.SearchRound | lib/ai/rag.ts:307-323 | a round clears the map and merges every query's results |
| RagSearch.SearchWithDynamicThreshold | lib/ai/rag.ts:295-335 | the controller tries the thresholds in order, returns at the first with at least two documents, else ends with the last round |
| RagSearch.Upsert | lib/ai/rag.ts:315-320 | an upsert adds at most one entry, keeps every id in its place, and never lowers a similarity |
| RagSearch.UpsertFacts | lib/ai/rag.ts:315-320 | an upsert keeps ids distinct, adds only its result, and keeps the best similarity per id |
| RagSearch.MergeAllDistinct | lib/ai/rag.ts:314-321 | merging one list keeps the ids distinct |
| RagSearch.MergeAllFrom | lib/ai/rag.ts:314-321 | merging one list adds only that list's results |
| RagSearch.MergeAllCovers | lib/ai/rag.ts:314-321 | merging one list keeps every id with at least its best similarity so far |
| RagSearch.MergeAllFacts | lib/ai/rag.ts:314-321 | the three merge facts together |
| RagSearch.MergeListsFacts | lib/ai/rag.ts:307-323 | after merging all lists every id appears once, comes from one of them, and carries the best similarity found |
| RagSearch.RoundFacts | lib/ai/rag.ts:307-323 | a round's entries are distinct by id, each found by one of its queries, at or above its threshold |
| RagSearch.RoundKeepsBest | lib/ai/rag.ts:315-320 | each id keeps the greatest similarity any query found at that threshold |
| RagSearch.ChosenIndex | lib/ai/rag.ts:302-330 | the threshold the controller stops at: the first with at least two documents, else the last |
| RagSearch.ChosenRound | lib/ai/rag.ts:307-334 | the map the controller ends with is the chosen round alone, because the map is cleared each time |
| RagSearch.TopFacts | lib/ai/rag.ts:333 | the sorted and cut list is best first, within the limit, distinct by id, drawn from the map |
| RagSearch.DynamicSearch | lib/ai/rag.ts:295-335 | the answer is best first and within a non-negative limit |
| RagSearch.DynamicSearchFacts | lib/ai/rag.ts:295-335 | the answer is best first, within the limit, each document once, from the first round with two documents (else the last), at its threshold, each id with its best similarity |
| RagContext.MetadataParts | lib/ai/rag.ts:203-207 | one to three metadata parts, ending with the similarity percentage |
| RagContext.ContextPartNamesTitle | lib/ai/rag.ts:200-212 | each context block names its result's title |
| RagContext.SourceOf | lib/ai/rag.ts:216-224 | a source copies id, title, type, similarity and excerpts; drops a falsy category; missing tags become empty |
| RagContext.SumBounds | lib/ai/rag.ts:226 | the sum of the similarities lies between n times the least and n times the greatest |
| RagContext.AllExcerpts | lib/ai/rag.ts:191-197 | one excerpt list per result |
| RagContext.ContextParts | lib/ai/rag.ts:200-212 | one context block per result, in order |
| RagContext.Sources | lib/ai/rag.ts:216-224 | one source per result, in order |
| RagContext.ContextFrom | lib/ai/rag.ts:177-240 | relevant content exactly when there are results; one source per result, carrying its id, and `totalSources` counts them |
| RagContext.ContextOf | lib/ai/rag.ts:177-240 | relevant content exactly when there are results, and `totalSources` equals both their number and the number of sources |
| RagContext.ContextTotals | lib/ai/rag.ts:177-240 | no results give the empty answer; else one source per result and `totalSources` equals their number |
| RagContext.AverageWithin | lib/ai/rag.ts:226 | the average similarity lies between the least and the greatest |
| RagContext.SourcesFollowResults | lib/ai/rag.ts:216-238 | the sources keep the results' order, ids, distinctness and similarity bounds |
| RagContext.ContextNamesEveryTitle | lib/ai/rag.ts:200-214 | the context names the title of every result |
| RagContext.GetRAGContext | lib/ai/rag.ts:160-240 | the basic context has relevant content exactly when the search finds something, and counts what it finds |
| RagContext.GetRAGContextSources | lib/ai/rag.ts:160-240 | the basic context holds at most `maxResults` sources, all at or above the threshold, best first |
| RagContext.GetAdvancedRAGContext | lib/ai/rag.ts:337-421 | the settings fill in a missing threshold or limit; the message is expanded and searched with the dynamic threshold |
| RagContext.AdvancedContextSources | lib/ai/rag.ts:337-421 | the advanced context holds each document once, best first, within the limit |
| RagContext.SourceLines | lib/ai/rag.ts:263-265 | one source line per source |
| RagContext.InstructionsCarry | lib/ai/rag.ts:267-288 | the instruction block carries the summary and the context whole |
| RagContext.RagInstructions | lib/ai/rag.ts:263-292 | the instruction block built from a context carries its summary and its context text |
| RagContext.BuildRAGPrompt | lib/ai/rag.ts:254-293 | without relevant content the prompt is unchanged; with it the prompt starts with the original and a blank line |
| RagContext.PromptCarriesContext | lib/ai/rag.ts:267-292 | with relevant content the prompt carries the summary and the context |
| RagContext.ProcessMessageWithRAG | lib/ai/rag.ts:435-479 | the advanced context (the expanded message searched with the stored limit and thresholds) or the basic one with 0.65 and 5, then the prompt built from it; unchanged without relevant content |
| Cms.Evaluate | lib/ai/cms.ts:101-128 | a scored row carries the row itself |
| Cms.EvaluateSkips | lib/ai/cms.ts:103-127 | a row is skipped exactly when it has no embedding, the embedding does not parse, or its length differs from the query's |
| Cms.Candidates | lib/ai/cms.ts:101-129 | the candidates are exactly the rows that could be scored |
| Cms.CandidatesConcat | lib/ai/cms.ts:101-129 | scoring distributes over concatenated rows |
| Cms.ToResult | lib/ai/cms.ts:112-120 | a result copies id, title, content, type, category and tags, with the similarity |
| Cms.AboveThreshold | lib/ai/cms.ts:130-136 | the threshold filter keeps exactly the finite candidates at or above the threshold |
| Cms.Passing | lib/ai/cms.ts:101-136 | every surviving row is at or above the threshold and comes from the fetched rows |
| Cms.FindSimilarContent | lib/ai/cms.ts:60-151 | no results on a failed embedding or fetch; else all at or above the threshold, best first, at most `limit`, copied from the rows |
| Cms.CandidatesWithout | lib/ai/cms.ts:103-129 | a skipped row does not change the candidates |
| Cms.SkippedItemIgnored | lib/ai/cms.ts:103-129 | a skipped row does not abort the search: the result is the one without it |
| Cms.FindSimilarContentComplete | lib/ai/cms.ts:130-138 | with a limit no smaller than the rows, every row at or above the threshold is returned |
| Cms.BatchUpdateEmbeddings | lib/ai/cms.ts:205-247 | one report entry per fetched row, in fetch order, with that row's outcome; empty on a failed fetch |
| Embeddings.PrepareTextForEmbedding | lib/ai/embeddings.ts:65-79 | the prepared text is the raw text with only whitespace cut from both ends, and it starts and ends with non-whitespace |
| Embeddings.TrimKeepsPrefix | lib/ai/embeddings.ts:73 | trimming keeps everything up to the last non-space character |
| Embeddings.TypeHeadLeads | lib/ai/embeddings.ts:72-73 | a present type puts `[TYPE]` at the front |
| Embeddings.PrefixSurvivesTrim | lib/ai/embeddings.ts:73 | a prefix starting with non-whitespace, before a body with some non-whitespace, survives `trim` |
| Embeddings.TypePrefixLeads | lib/ai/embeddings.ts:72-73 | a present type puts `[TYPE] ` at the front when title or content has a visible character |
| Embeddings.UpperTypeName | lib/ai/embeddings.ts:72 | each content-type name upper-cases to its capitals (`PROMPT`, `TEMPLATE`, `DOCUMENT`, `CONFIG`) |
| Embeddings.UntypedJoin | lib/ai/embeddings.ts:73 | without a type, trimmed title and content are joined by a blank line |
| Embeddings.DotSymmetric | lib/ai/embeddings.ts:95-96 | the dot product is symmetric |
| Embeddings.NormNonNegative | lib/ai/embeddings.ts:97-98 | the squared norms are never negative |
| Embeddings.CosineOf | lib/ai/embeddings.ts:86-89 | the cosine throws exactly when the lengths differ, with the source's message |
| Embeddings.CosineSymmetric | lib/ai/embeddings.ts:95-101 | the cosine is symmetric in its arguments |
| Embeddings.DotAndNorms | lib/ai/embeddings.ts:91-99 | the loop computes the dot product and both squared norms |
| Embeddings.CosineSimilarity | lib/ai/embeddings.ts:81-106 | the method computes the cosine or the length error |
| Bm25.Sanitize | lib/ai/bm25.ts:24 | every character becomes a word character or whitespace; those stay as they are |
| Bm25.SanitizeAll | lib/ai/bm25.ts:24 | the replacement keeps the length and maps each character |
| Bm25.Tokenize | lib/ai/bm25.ts:21-27 | every token is longer than 2 and made of `[a-z0-9_]` only |
| Bm25.SplitWithoutSeparator | lib/ai/bm25.ts:25 | a text without separators splits into itself |
| Bm25.TokenizeToken | lib/ai/bm25.ts:21-27 | a well-formed token tokenizes to itself |
| Bm25.NonAsciiSeparates | lib/ai/bm25.ts:24 | under the model's lower-casing every non-ASCII character, Vietnamese letters included, becomes a separator |
| Bm25.Occurrences | lib/ai/bm25.ts:88 | the term frequency is at most the length, and positive exactly when the term occurs |
| Bm25.OccurrencesConcat | lib/ai/bm25.ts:88 | term frequencies add over concatenation |
| Bm25.PreprocessDocument | lib/ai/bm25.ts:29-36 | the length is 3 times the title tokens plus the content tokens, with exactly their words |
| Bm25.TitleWeight | lib/ai/bm25.ts:35 | a title occurrence counts three times |
| Bm25.DocFreq | lib/ai/bm25.ts:69-74 | the document frequency is at most N, and positive exactly when some document has the term |
| Bm25.TotalAtLeast | lib/ai/bm25.ts:61-64 | the total length is at least each document's length |
| Bm25.AvgPositive | lib/ai/bm25.ts:66 | a corpus with a non-empty document has a positive average length |
| Bm25.IdfRatio | lib/ai/bm25.ts:78 | the argument of the logarithm is positive |
| Bm25.NoMatchScoresZero | lib/ai/bm25.ts:84-97 | a document without any query term scores exactly 0 |
| Bm25.DocumentLengths | lib/ai/bm25.ts:61-64 | each document's length, in order, and their sum |
| Bm25.CountDistinctTerms | lib/ai/bm25.ts:70-73 | one document's distinct terms each add one to their document frequency |
| Bm25.DocumentFrequencies | lib/ai/bm25.ts:69-74 | the map holds exactly the occurring terms, each with its document frequency |
| Bm25.IdfValues | lib/ai/bm25.ts:77-79 | the idf of every indexed term is `ln((N - df + 0.5) / (df + 0.5))` |
| Bm25.BM25.constructor | lib/ai/bm25.ts:48-58 | the index is built over the given documents |
| Bm25.BM25.BuildIndex | lib/ai/bm25.ts:60-80 | the lengths, the average, the document frequencies and the idf values describe the documents |
| Bm25.BM25.DocFreqBounds | lib/ai/bm25.ts:69-74 | every indexed term has `1 <= df <= N` and occurs somewhere |
| Bm25.BM25.Scores | lib/ai/bm25.ts:82-100 | one score per document, by index |
| Bm25.BM25.ScoreDocument | lib/ai/bm25.ts:85-97 | the inner loop computes the BM25 sum of one document |
| Bm25.BM25.Search | lib/ai/bm25.ts:82-100 | `search` returns exactly one score per document, aligned by index |
| Bm25.Index | lib/ai/bm25.ts:111-120 | one indexed document per source document, with its preprocessed tokens |
| Bm25.Corpus | lib/ai/bm25.ts:122-127 | the token lists of the indexed documents, in order |
| Bm25.Scored | lib/ai/bm25.ts:145-148 | each result carries its document's own fields and score, without tokens |
| Bm25.PositiveOnly | lib/ai/bm25.ts:150 | exactly the results with a positive score |
| Bm25.Ranked | lib/ai/bm25.ts:145-153 | positive, best first, at most `limit`, each a scored document |
| Bm25.RankedComplete | lib/ai/bm25.ts:145-153 | with a large enough limit every positively scored document is returned |
| Bm25.BM25Search.constructor | lib/ai/bm25.ts:107-109 | a fresh searcher has no index and no documents |
| Bm25.BM25Search.AddDocuments | lib/ai/bm25.ts:111-130 | the batch replaces the documents and is indexed afresh |
| Bm25.BM25Search.Search | lib/ai/bm25.ts:132-161 | nothing without an index or documents; else the ranked positive hits |
| Bm25.BM25Search.GetDocumentCount | lib/ai/bm25.ts:163-165 | the number of documents held |
| Bm25.AddThenCount | lib/ai/bm25.ts:121-165 | the count after two batches is the size of the last one |
| RagSettings.DefaultsOrdered | lib/rag-settings.ts:9-15 | the defaults, with `minThreshold < 0.45 < threshold` |
| RagSettings.Merge | lib/rag-settings.ts:25-26 | a present field replaces the stored one; an absent one keeps it |
| RagSettings.MergeIdempotent | lib/rag-settings.ts:25-26 | the same update twice equals it once |
| RagSettings.MergeNothing | lib/rag-settings.ts:25-26 | an empty update keeps everything |
| RagSettings.MergeTwice | lib/rag-settings.ts:25-26 | two updates equal one where the later fields win |
| RagSettings.SettingsStore.constructor | lib/rag-settings.ts:19-54 | a copy of the defaults, then the environment's overrides |
| RagSettings.SettingsStore.GetRAGSettings | lib/rag-settings.ts:21-23 | a copy of the stored settings |
| RagSettings.SettingsStore.UpdateRAGSettings | lib/rag-settings.ts:25-29 | the merged settings are stored and returned |
| RagSettings.SettingsStore.ResetRAGSettings | lib/rag-settings.ts:31-35 | the defaults are stored and returned |
| AuthHelpers.RequireAuth | lib/auth-helpers.ts:4-10 | `Authentication required` exactly without a session user; else the session |
| AuthHelpers.RequireRole | lib/auth-helpers.ts:12-18 | success exactly when authenticated and the role is allowed; else the right error |
| AuthHelpers.RequirePaidUser | lib/auth-helpers.ts:20-22 | admits exactly paid users and admins |
| AuthHelpers.RequireAdmin | lib/auth-helpers.ts:24-26 | admits exactly admins |
| AuthHelpers.IsPaidUser | lib/auth-helpers.ts:28-30 | true exactly for paid users and admins |
| AuthHelpers.IsAdmin | lib/auth-helpers.ts:32-34 | true exactly for admins |
| AuthHelpers.AdminIsPaidUser | lib/auth-helpers.ts:21-33 | every admin is a paid user; a paid user who is not an admin is `paiduser` |
| AuthHelpers.PaidGuardAgrees | lib/auth-helpers.ts:20-34 | the guards and the role predicates agree on authenticated sessions |
| AuthHelpers.AdminPassesPaidGuard | lib/auth-helpers.ts:20-26 | a session the admin guard admits passes the paid-user guard too |
| AuthHelpers.UnauthenticatedNeverAdmitted | lib/auth-helpers.ts:12-14 | no role list admits a session without a user |
| Stripe.CompletedPaymentsQuery | lib/stripe.ts:68-75 | at most one row, non-empty exactly when the user has a completed payment |
| Stripe.SubscriptionRole | lib/stripe.ts:85 | `paiduser` exactly when active or with a completed payment; never `admin` |
| Stripe.PaidRecord | lib/stripe.ts:53-64 | role `paiduser`, status `active`, the given customer id, the subscription id when given |
| Stripe.StatusRecord | lib/stripe.ts:66-89 | status replaced; `paiduser` exactly when active or paid before, else `user`; ids kept |
| Stripe.RoleIgnoresPreviousRole | lib/stripe.ts:81-88 | the new role ignores the old one, so a lapsed admin without payments becomes `user` |
| Stripe.PaidThenActive | lib/stripe.ts:53-89 | an `active` event after paying leaves the paid row as it was |
| Stripe.UserTable.constructor | lib/stripe.ts:53-89 | the tables as given |
| Stripe.UserTable.UpdateUserToPaid | lib/stripe.ts:53-64 | only the user's row changes, to the paid record |
| Stripe.UserTable.UpdateUserSubscriptionStatus | lib/stripe.ts:66-89 | the payment lookup, then only the user's row changes, to the status record |
| Stripe.CancelAfterPayment | lib/stripe.ts:77-85 | a user with a completed payment keeps `paiduser` through a cancellation, and no other row changes |
| Middleware.LoginPagesAreAuthRoutes | middleware.ts:12-21 | `/login`, `/register` and the guest sign-in path are authentication routes, not `/ping` |
| Middleware.Middleware | middleware.ts:5-72 | the decision, as written: never the home redirect |
| Middleware.PingAnswered | middleware.ts:12-14 | `/ping` answers `pong` before anything else |
| Middleware.AuthRoutesPassThrough | middleware.ts:17-23 | the authentication routes pass through whatever the token |
| Middleware.MissingTokenSignsInGuest | middleware.ts:25-47 | a missing token or a read failure redirects to guest sign-in with the encoded URL |
| Middleware.AdminGate | middleware.ts:50-63 | `/admin` admits exactly the role `admin`; others go to the login page with a callback |
| Middleware.OtherRequestsPassThrough | middleware.ts:65-71 | every other request with a token passes through |
| Middleware.RedirectTargetsPassThrough | middleware.ts:17-58 | the redirect targets are themselves reachable, so redirects do not loop |
| Middleware.SignedInUserReachesLogin | middleware.ts:17-69 | a signed-in non-guest reaches `/login`, where the intended decision sends them home |
| Middleware.MiddlewareIntended | middleware.ts:65-69 | signed-in non-guests at `/login` or `/register` are sent home |
| Middleware.IntendedLoginPage | middleware.ts:17-69 | at those two pages the intended decision redirects exactly signed-in non-guests |
| Middleware.IntendedAgreesElsewhere | middleware.ts:5-72 | everywhere else the intended decision is the written one |
| Constants.RunFailed | lib/constants.ts:9 | a failed match stays failed |
| Constants.RunDigits | lib/constants.ts:9 | after the prefix the pattern accepts exactly digit strings, non-empty at first |
| Constants.RunPrefix | lib/constants.ts:9 | from a prefix state the pattern accepts the rest of `guest-` and then one or more digits |
| Constants.GuestPatternAgrees | lib/constants.ts:9 | the character-by-character reading of `^guest-\d+$` and its declarative reading agree |
| Constants.EmptyIsNotGuest | lib/constants.ts:9 | the empty e-mail is not a guest |
| Constants.NumberedGuestMatches | lib/constants.ts:9 | every `guest-<number>` matches |
| Constants.AddressIsNotGuest | lib/constants.ts:9 | an address containing `@` never matches |
| Constants.DummyPasswordCache.constructor | lib/constants.ts:11 | the cache starts empty |
| Constants.DummyPasswordCache.GetDummyPassword | lib/constants.ts:13-19 | the generator runs only while the cache is empty or falsy; else the cached value is returned |
| Constants.TwoCalls | lib/constants.ts:13-19 | after a non-empty password is cached, a later call returns it and does not generate |
| Marketplace.SearchStep | app/marketplace/page.tsx:46-53 | the search filter keeps exactly the documents whose title, description or a tag contains the lowercased term |
| Marketplace.CategoryStep | app/marketplace/page.tsx:55-59 | the category filter keeps exactly that category |
| Marketplace.KindStep | app/marketplace/page.tsx:61-67 | `free` keeps free documents, `paid` the others, any other value nothing changes |
| Marketplace.FilterDocuments | app/marketplace/page.tsx:43-67 | the listing keeps exactly the documents that pass every present filter |
| Marketplace.ListingIsSubsequence | app/marketplace/page.tsx:44-67 | the listing keeps the fetched order, and without parameters is the whole list |
| Marketplace.NamedCategories | app/marketplace/page.tsx:69 | the non-empty categories of all fetched documents |
| Marketplace.Categories | app/marketplace/page.tsx:69 | each non-empty category of any fetched document, once |
| Marketplace.NamedCategorySource | app/marketplace/page.tsx:69 | each listed category comes from a document whose predecessors give exactly the categories listed before it |
| Marketplace.CategoriesOrder | app/marketplace/page.tsx:69 | the categories come in the order the documents first carry them |
| Marketplace.CategoriesIgnoreFilters | app/marketplace/page.tsx:69 | a filtered-out document's category is still listed |
| Marketplace.ListingCounts | app/marketplace/page.tsx:70-72 | the total is the listing's length, and free plus paid is the total |

## Left out

- Network, database and payment I/O is not modelled. This covers the OpenAI embedding calls (`generateEmbedding`, `generateEmbeddings`), every Drizzle query and every Stripe SDK call. The model takes their results as inputs, and `None` stands for a failure.
- The `catch` branches of `getRAGContext` and `getAdvancedRAGContext` are not modelled. With the search and its promises as an input, none of the modelled steps can throw.
- The `catch` of `findSimilarContent` is modelled only as its effect: an absent query embedding or an absent fetch gives `[]`.
- `getCMSPrompts`, `getCMSTemplates`, `getCMSContentBySlugAndUser`, `getAllUserCMSContent` and `updateContentEmbedding` are left out. They are database queries. `batchUpdateEmbeddings` receives the outcome of `updateContentEmbedding` as its `update` parameter.
- Logging, `async`/`await` sequencing and timing (`Date.now()`) are left out. They do not affect any returned value.
- Floating-point arithmetic is not modelled: similarities and scores are exact reals. `Math.sqrt`, `Math.log` and `toFixed` percentage formatting are parameters.
- Embeddings.CosineSimilarity: the division is exact real division. A zero vector gives the distinct value NaN, not an IEEE computation.
- Bm25.BM25.BuildIndex: the average length of an empty corpus is stored as 0.0 rather than NaN. It is never read, because scores only map over existing documents.
- `parseFloat` and `parseInt` of the environment variables in `lib/rag-settings.ts` are not modelled. The store's constructor receives the already parsed values.
- Strings.ToLower: covers ASCII, the Latin-1 capitals U+00C0–U+00DE (except U+00D7), the even-coded capitals of U+0100–U+012F and U+014A–U+0177, the horned letters Ơ and Ư, and the even-coded capitals of U+1EA0–U+1EF8, not the whole Unicode case table. Every other character is left unchanged: among them the capitals of U+0132–U+0137, U+0139–U+0148 and U+0178–U+017E, which JavaScript lowers, U+212A, which JavaScript lowers to `k`, and U+0130, which it lowers to `i` followed by a combining dot.
- Strings.UpperChar: upper-cases ASCII letters only, while JavaScript's `toUpperCase` covers all of Unicode. It is applied only to the type of a content item, and the callers in `lib/ai/cms.ts` pass content-type names, which are lower-case ASCII (Embeddings.UpperTypeName).
- Characters are Dafny characters, not the UTF-16 code units JavaScript counts with. Lengths such as the 150-character summary cut count characters.
- Strings.SplitOn: splits on single separator characters. The regular expressions `/\s+/` and `/[.!?]+/` merge runs of separators. The extra empty pieces this produces are always removed afterwards, by the length-over-2 filter and by the trimmed-length-over-20 filter. The kept words and sentences are therefore the same.
- The JavaScript `Map` keyed by document id in `searchWithDynamicThreshold` is a sequence in insertion order, with distinct ids. Order matters because the later sort is stable.
- RagExcerpts.ExcerptsBound: the bound `min(max, 8)` holds only for a non-negative maximum. With a negative `maxExcerpts`, `slice(0, end)` drops elements from the back instead.
- The user id is absorbed into the search passed to the context builders. The database lookups it scopes are not modelled.
- `config.matcher` in `middleware.ts`, `next.config.ts` and the environment flags in `lib/constants.ts` are framework configuration and are not modelled.
- The Stripe customer, payment-intent and subscription creation calls in `lib/stripe.ts` are left out. They are SDK calls with no logic of their own.
- The React rendering of `app/marketplace/page.tsx` and the user-access lookup it feeds are left out. Only the filtering and the counts are modelled.
- `lib/db/schema.ts` is not part of this model beyond its four enumerations.

## Findings

| source | as written | input that shows it | evidently intended | confidence | as-written member | corrected member |
|---|---|---|---|---|---|---|
| middleware.ts:17-69 | `/login` and `/register` already pass through at the authentication-route check, so the later redirect of signed-in, non-guest users at exactly those paths can never fire | pathname `/login` with a token whose role is `user` and whose e-mail is `alice@example.com`: the written decision lets it through | a signed-in, non-guest user opening `/login` or `/register` is sent to `/` | not executed | Middleware.SignedInUserReachesLogin | Middleware.MiddlewareIntended |

`Middleware.Middleware` models the code as written, and its contract states that it never
returns the home redirect. `Middleware.SignedInUserReachesLogin` shows the concrete input.
`Middleware.MiddlewareIntended` is the corrected decision. `Middleware.IntendedLoginPage`
proves its behaviour at the two pages, and `Middleware.IntendedAgreesElsewhere` proves it
agrees with the written decision on every other path.
