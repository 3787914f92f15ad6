/** The result pipeline of `findSimilarContent` and the result accumulation of
    `batchUpdateEmbeddings` in lib/ai/cms.ts. The database rows, the query embedding and
    `JSON.parse` are inputs; an I/O failure is an absent (`None`) input. */
module Cms {
  import opened Collections
  import opened Embeddings
  import opened Schema

  /** A `cmsContent` row as far as the pipeline reads it; `embedding` is the JSON text. */
  datatype CmsItem = CmsItem(
    id: string, title: string, content: string, kind: ContentType,
    category: Option<string>, tags: Option<seq<string>>, embedding: Option<string>)

  /** One search hit: the row's own fields and its similarity to the query. */
  datatype CmsResult = CmsResult(
    id: string, title: string, content: string, kind: ContentType,
    category: Option<string>, tags: Option<seq<string>>, similarity: real)

  function SimilarityOf(r: CmsResult): real { r.similarity }

  /** `result` carries the fields of `item` unchanged. */
  predicate CopiesFields(result: CmsResult, item: CmsItem)
  {
    && result.id == item.id && result.title == item.title && result.content == item.content
    && result.kind == item.kind && result.category == item.category && result.tags == item.tags
  }

  /** A row together with the similarity computed for it (which may be NaN). */
  datatype Candidate = Candidate(item: CmsItem, similarity: Similarity)

  /** The body of the `map` with its `try`: no embedding, an embedding that does not parse,
      or a cosine that throws gives `null` (`None`). */
  function Evaluate(query: seq<real>, item: CmsItem, parse: string -> Option<seq<real>>,
                    sqrt: real -> real): (r: Option<Candidate>)
    ensures r.Some? ==> r.value.item == item
  {
    if !Present(item.embedding) then None
    else
      match parse(item.embedding.value)
      case None => None
      case Some(vector) =>
        match CosineOf(query, vector, sqrt)
        case Error(_) => None
        case Ok(similarity) => Some(Candidate(item, similarity))
  }

  /** A row is skipped exactly when it has no embedding, the embedding does not parse, or its
      vector's length differs from the query's. */
  lemma EvaluateSkips(query: seq<real>, item: CmsItem, parse: string -> Option<seq<real>>,
                      sqrt: real -> real)
    ensures Evaluate(query, item, parse, sqrt).None? <==>
      (!Present(item.embedding) || parse(item.embedding.value).None?
       || |parse(item.embedding.value).value| != |query|)
  {
  }

  /** `map(...).filter(result => result !== null)`, in row order. */
  function Candidates(query: seq<real>, items: seq<CmsItem>, parse: string -> Option<seq<real>>,
                      sqrt: real -> real): (r: seq<Candidate>)
    ensures |r| <= |items|
    ensures forall c :: c in r <==> exists i :: 0 <= i < |items| && Evaluate(query, items[i], parse, sqrt) == Some(c)
  {
    if items == [] then []
    else
      var init := items[..|items| - 1];
      var here := Evaluate(query, items[|items| - 1], parse, sqrt);
      assert forall i :: 0 <= i < |init| ==> init[i] == items[i];
      Candidates(query, init, parse, sqrt) + (if here.Some? then [here.value] else [])
  }

  lemma {:induction false} CandidatesConcat(query: seq<real>, a: seq<CmsItem>, b: seq<CmsItem>,
                                            parse: string -> Option<seq<real>>, sqrt: real -> real)
    ensures Candidates(query, a + b, parse, sqrt)
         == Candidates(query, a, parse, sqrt) + Candidates(query, b, parse, sqrt)
  {
    if b == [] {
      assert a + b == a;
    } else {
      assert (a + b)[..|a + b| - 1] == a + b[..|b| - 1];
      CandidatesConcat(query, a, b[..|b| - 1], parse, sqrt);
    }
  }

  /** `similarity >= threshold`; a NaN similarity never passes. */
  predicate Passes(c: Candidate, threshold: real)
  {
    c.similarity.Finite? && c.similarity.value >= threshold
  }

  function ToResult(c: Candidate): (r: CmsResult)
    requires c.similarity.Finite?
    ensures CopiesFields(r, c.item) && r.similarity == c.similarity.value
  {
    var item := c.item;
    CmsResult(item.id, item.title, item.content, item.kind, item.category, item.tags,
              c.similarity.value)
  }

  /** `filter(result => result.similarity >= threshold)`. */
  function AboveThreshold(cs: seq<Candidate>, threshold: real): (r: seq<CmsResult>)
    ensures |r| <= |cs|
    ensures forall x :: x in r <==> exists c :: c in cs && Passes(c, threshold) && x == ToResult(c)
  {
    if cs == [] then []
    else
      var last := cs[|cs| - 1];
      assert cs == cs[..|cs| - 1] + [last];
      AboveThreshold(cs[..|cs| - 1], threshold) + (if Passes(last, threshold) then [ToResult(last)] else [])
  }

  /** `x` carries the fields of one of `items`. */
  predicate FromRows(x: CmsResult, items: seq<CmsItem>)
  {
    exists i :: 0 <= i < |items| && CopiesFields(x, items[i])
  }

  /** The rows that survive the two filters, in row order. */
  function Passing(query: seq<real>, items: seq<CmsItem>, parse: string -> Option<seq<real>>,
                   sqrt: real -> real, threshold: real): (r: seq<CmsResult>)
    ensures forall x :: x in r ==> x.similarity >= threshold && FromRows(x, items)
  {
    var cs := Candidates(query, items, parse, sqrt);
    var r := AboveThreshold(cs, threshold);
    forall x | x in r ensures x.similarity >= threshold && FromRows(x, items) {
      var c :| c in cs && Passes(c, threshold) && x == ToResult(c);
      var i :| 0 <= i < |items| && Evaluate(query, items[i], parse, sqrt) == Some(c);
      assert CopiesFields(x, items[i]);
    }
    r
  }

  /** `findSimilarContent`: every parsable row scored against the query, kept when at or above
      the threshold, best first, at most `limit` of them; a failed embedding or fetch gives no
      results. */
  function FindSimilarContent(queryEmbedding: Option<seq<real>>, fetched: Option<seq<CmsItem>>,
                              parse: string -> Option<seq<real>>, sqrt: real -> real,
                              limit: int, threshold: real): (r: seq<CmsResult>)
    ensures queryEmbedding.None? || fetched.None? ==> r == []
    ensures forall x :: x in r ==> x.similarity >= threshold
    ensures SortedDesc(r, SimilarityOf)
    ensures limit >= 0 ==> |r| <= limit
    ensures forall x :: x in r ==> fetched.Some? && FromRows(x, fetched.value)
  {
    if queryEmbedding.None? || fetched.None? then []
    else
      var passing := Passing(queryEmbedding.value, fetched.value, parse, sqrt, threshold);
      var sorted := SortDesc(passing, SimilarityOf);
      SortedMembers(passing, SimilarityOf);
      SortedPrefix(sorted, SimilarityOf, SliceEnd(|sorted|, limit));
      SlicePrefix(sorted, limit)
  }

  lemma CandidatesWithout(query: seq<real>, items: seq<CmsItem>, k: nat,
                          parse: string -> Option<seq<real>>, sqrt: real -> real)
    requires k < |items| && Evaluate(query, items[k], parse, sqrt).None?
    ensures Candidates(query, items, parse, sqrt)
         == Candidates(query, items[..k] + items[k + 1..], parse, sqrt)
  {
    var before, after := items[..k], items[k + 1..];
    assert items == before + [items[k]] + after;
    CandidatesConcat(query, before + [items[k]], after, parse, sqrt);
    CandidatesConcat(query, before, [items[k]], parse, sqrt);
    CandidatesConcat(query, before, after, parse, sqrt);
    assert [items[k]][..0] == [];
    assert Candidates(query, [items[k]], parse, sqrt) == [];
  }

  /** A row that is skipped does not abort the search: the result is the one without it. */
  lemma SkippedItemIgnored(query: seq<real>, items: seq<CmsItem>, k: nat,
                           parse: string -> Option<seq<real>>, sqrt: real -> real,
                           limit: int, threshold: real)
    requires k < |items| && Evaluate(query, items[k], parse, sqrt).None?
    ensures FindSimilarContent(Some(query), Some(items), parse, sqrt, limit, threshold)
         == FindSimilarContent(Some(query), Some(items[..k] + items[k + 1..]), parse, sqrt, limit, threshold)
  {
    CandidatesWithout(query, items, k, parse, sqrt);
    assert Passing(query, items, parse, sqrt, threshold)
        == Passing(query, items[..k] + items[k + 1..], parse, sqrt, threshold);
  }

  /** With a limit no smaller than the number of passing rows, every row whose similarity is
      at or above the threshold is returned. */
  lemma FindSimilarContentComplete(query: seq<real>, items: seq<CmsItem>, i: nat,
                                   parse: string -> Option<seq<real>>, sqrt: real -> real,
                                   limit: int, threshold: real)
    requires i < |items|
    requires Evaluate(query, items[i], parse, sqrt).Some?
    requires Passes(Evaluate(query, items[i], parse, sqrt).value, threshold)
    requires limit >= |items|
    ensures ToResult(Evaluate(query, items[i], parse, sqrt).value)
         in FindSimilarContent(Some(query), Some(items), parse, sqrt, limit, threshold)
  {
    var c := Evaluate(query, items[i], parse, sqrt).value;
    var cs := Candidates(query, items, parse, sqrt);
    assert c in cs;
    var passing := Passing(query, items, parse, sqrt, threshold);
    assert passing == AboveThreshold(cs, threshold);
    assert ToResult(c) in passing;
    var sorted := SortDesc(passing, SimilarityOf);
    SortedMembers(passing, SimilarityOf);
    assert SlicePrefix(sorted, limit) == sorted;
  }

  // ---------------------------------------------------------------------
  // Batch embedding update

  /** One entry of the `batchUpdateEmbeddings` report. */
  datatype BatchEntry = BatchEntry(id: string, title: string, success: bool)

  /** `batchUpdateEmbeddings`: one report entry per fetched row, in fetch order, with the outcome
      `update` gives for that row's id; a failed fetch gives an empty report. */
  method BatchUpdateEmbeddings(fetched: Option<seq<CmsItem>>, update: string -> bool)
    returns (results: seq<BatchEntry>)
    ensures fetched.None? ==> results == []
    ensures fetched.Some? ==> |results| == |fetched.value|
    ensures fetched.Some? ==> forall i :: 0 <= i < |results| ==>
      results[i] == BatchEntry(fetched.value[i].id, fetched.value[i].title, update(fetched.value[i].id))
  {
    if fetched.None? {
      return [];
    }
    var items := fetched.value;
    results := [];
    for i := 0 to |items|
      invariant |results| == i
      invariant forall j :: 0 <= j < i ==>
        results[j] == BatchEntry(items[j].id, items[j].title, update(items[j].id))
    {
      var success := update(items[i].id);
      results := results + [BatchEntry(items[i].id, items[i].title, success)];
    }
  }
}
