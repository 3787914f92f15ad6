/** `searchWithDynamicThreshold` of lib/ai/rag.ts. The per-query search is a parameter that
    keeps the promises of the `findSimilarContent` pipeline (`Sound`); the pipeline itself,
    over one user's rows, is one such search (`CmsSearch`). The `Map` keyed by document id is
    an insertion-ordered sequence of results with distinct ids, which is what `Map.values()`
    yields. */
module RagSearch {
  import opened Collections
  import opened Cms

  /** What `findSimilarContent` depends on besides its arguments: the embedding the API
      returns for a text (if it succeeds), the rows the database returns (if it succeeds),
      `JSON.parse` for embeddings, and the square root. */
  datatype SearchEnv = SearchEnv(
    embed: string -> Option<seq<real>>, fetched: Option<seq<CmsItem>>,
    parse: string -> Option<seq<real>>, sqrt: real -> real)

  /** A per-query search: query text, limit and threshold to results. */
  type Searcher = (string, int, real) -> seq<CmsResult>

  /** `findSimilarContent(query, userId, limit, threshold)` over one environment. */
  function CmsSearch(env: SearchEnv): Searcher
  {
    (query: string, limit: int, threshold: real) =>
      FindSimilarContent(env.embed(query), env.fetched, env.parse, env.sqrt, limit, threshold)
  }

  /** One answer of the search as the controller relies on it: best first, within the limit,
      every result at or above the threshold. */
  predicate Answers(results: seq<CmsResult>, limit: int, threshold: real)
  {
    && SortedDesc(results, SimilarityOf)
    && (limit >= 0 ==> |results| <= limit)
    && forall i :: 0 <= i < |results| ==> threshold <= results[i].similarity
  }

  /** The promises of the search that the controller relies on, for every call. */
  ghost predicate Sound(search: Searcher)
  {
    forall query, limit, threshold :: Answers(search(query, limit, threshold), limit, threshold)
  }

  /** The `findSimilarContent` pipeline is such a search. */
  lemma CmsSearchSound(env: SearchEnv)
    ensures Sound(CmsSearch(env))
  {
    forall query, limit, threshold
      ensures Answers(CmsSearch(env)(query, limit, threshold), limit, threshold)
    {
      var r := FindSimilarContent(env.embed(query), env.fetched, env.parse, env.sqrt, limit, threshold);
      assert CmsSearch(env)(query, limit, threshold) == r;
      assert forall i :: 0 <= i < |r| ==> r[i] in r;
    }
  }

  function IdOf(r: CmsResult): string { r.id }

  // ---------------------------------------------------------------------
  // The id-keyed map

  /** The position of the entry with id `id`, if there is one. */
  function IndexOfId(entries: seq<CmsResult>, id: string): (r: Option<nat>)
    ensures r.Some? ==> r.value < |entries| && entries[r.value].id == id
    ensures r.None? ==> forall i :: 0 <= i < |entries| ==> entries[i].id != id
  {
    if entries == [] then None
    else if entries[0].id == id then Some(0)
    else
      match IndexOfId(entries[1..], id)
      case None => None
      case Some(i) => Some(i + 1)
  }

  /** One step of the `forEach`: a new id is appended; an existing entry is overwritten in its
      place only by a strictly greater similarity. */
  function Upsert(entries: seq<CmsResult>, result: CmsResult): (r: seq<CmsResult>)
    ensures |entries| <= |r| <= |entries| + 1
    ensures forall i :: 0 <= i < |entries| ==> r[i].id == entries[i].id
    ensures forall i :: 0 <= i < |entries| ==> r[i].similarity >= entries[i].similarity
  {
    match IndexOfId(entries, result.id)
    case None => entries + [result]
    case Some(p) => if result.similarity > entries[p].similarity then entries[p := result] else entries
  }

  /** The `forEach` over one query's results. */
  function MergeAll(entries: seq<CmsResult>, results: seq<CmsResult>): seq<CmsResult>
  {
    if results == [] then entries
    else Upsert(MergeAll(entries, results[..|results| - 1]), results[|results| - 1])
  }

  /** The results of each query at one threshold, in query order. */
  function Hits(search: Searcher, queries: seq<string>, maxResults: int, threshold: real)
    : (r: seq<seq<CmsResult>>)
    ensures |r| == |queries|
    ensures forall j :: 0 <= j < |r| ==> r[j] == search(queries[j], maxResults, threshold)
  {
    seq(|queries|, j requires 0 <= j < |queries| => search(queries[j], maxResults, threshold))
  }

  /** The map after merging the result lists in order, starting from a cleared map. */
  function MergeLists(lists: seq<seq<CmsResult>>): seq<CmsResult>
  {
    if lists == [] then [] else MergeAll(MergeLists(lists[..|lists| - 1]), lists[|lists| - 1])
  }

  /** The map after searching with every query at one threshold. */
  function Round(search: Searcher, queries: seq<string>, maxResults: int, threshold: real): seq<CmsResult>
  {
    MergeLists(Hits(search, queries, maxResults, threshold))
  }

  /** The map the controller ends with, trying thresholds from index `i` on: the first with at
      least two documents, else the last. */
  function ChosenFrom(search: Searcher, queries: seq<string>, maxResults: int, thresholds: seq<real>,
                      i: nat): seq<CmsResult>
    decreases |thresholds| - i
  {
    if i >= |thresholds| then []
    else
      var merged := Round(search, queries, maxResults, thresholds[i]);
      if |merged| >= 2 || i == |thresholds| - 1 then merged
      else ChosenFrom(search, queries, maxResults, thresholds, i + 1)
  }

  /** `sort((a, b) => b.similarity - a.similarity).slice(0, maxResults)`. */
  function Top(merged: seq<CmsResult>, maxResults: int): seq<CmsResult>
  {
    SlicePrefix(SortDesc(merged, SimilarityOf), maxResults)
  }

  /** The thresholds in the order they are tried. */
  function Thresholds(initialThreshold: real, minThreshold: real): seq<real>
  {
    [initialThreshold, 0.45, minThreshold]
  }

  /** What `searchWithDynamicThreshold` returns. */
  function DynamicSearch(search: Searcher, queries: seq<string>, maxResults: int,
                         thresholds: seq<real>): (r: seq<CmsResult>)
    ensures maxResults >= 0 ==> |r| <= maxResults
    ensures SortedDesc(r, SimilarityOf)
  {
    var sorted := SortDesc(ChosenFrom(search, queries, maxResults, thresholds, 0), SimilarityOf);
    SortedPrefix(sorted, SimilarityOf, |SlicePrefix(sorted, maxResults)|);
    Top(ChosenFrom(search, queries, maxResults, thresholds, 0), maxResults)
  }

  // ---------------------------------------------------------------------
  // The controller

  /** The loop over one query's results. */
  method MergeResults(allResults: seq<CmsResult>, results: seq<CmsResult>) returns (merged: seq<CmsResult>)
    ensures merged == MergeAll(allResults, results)
  {
    merged := allResults;
    for k := 0 to |results|
      invariant merged == MergeAll(allResults, results[..k])
    {
      assert results[..k + 1][..k] == results[..k];
      var result := results[k];
      var existing := IndexOfId(merged, result.id);
      if existing.None? {
        merged := merged + [result];
      } else if result.similarity > merged[existing.value].similarity {
        merged := merged[existing.value := result];
      }
    }
    assert results[..|results|] == results;
  }

  /** The loop over the expanded queries at one threshold, after `allResults.clear()`. */
  method SearchRound(search: Searcher, expandedQueries: seq<string>, maxResults: int, threshold: real)
    returns (allResults: seq<CmsResult>)
    ensures allResults == Round(search, expandedQueries, maxResults, threshold)
  {
    ghost var hits := Hits(search, expandedQueries, maxResults, threshold);
    allResults := [];
    for j := 0 to |expandedQueries|
      invariant allResults == MergeLists(hits[..j])
    {
      assert hits[..j + 1][..j] == hits[..j];
      var results := search(expandedQueries[j], maxResults, threshold);
      allResults := MergeResults(allResults, results);
    }
    assert hits[..|expandedQueries|] == hits;
  }

  /** `searchWithDynamicThreshold`: the thresholds in order, the map cleared before each, an
      early return at the first with at least two documents. */
  method SearchWithDynamicThreshold(search: Searcher, expandedQueries: seq<string>, maxResults: int,
                                    initialThreshold: real, minThreshold: real)
    returns (combinedResults: seq<CmsResult>)
    ensures combinedResults
         == DynamicSearch(search, expandedQueries, maxResults, Thresholds(initialThreshold, minThreshold))
  {
    var thresholds := [initialThreshold, 0.45, minThreshold];
    var allResults: seq<CmsResult> := [];
    for i := 0 to |thresholds|
      invariant i == 0 ==> allResults == []
      invariant 0 < i ==> allResults == Round(search, expandedQueries, maxResults, thresholds[i - 1])
      invariant 0 < i ==> |allResults| < 2
      invariant 0 < i ==>
        ChosenFrom(search, expandedQueries, maxResults, thresholds, 0)
        == ChosenFrom(search, expandedQueries, maxResults, thresholds, i - 1)
    {
      allResults := SearchRound(search, expandedQueries, maxResults, thresholds[i]);
      if |allResults| >= 2 {
        return Top(allResults, maxResults);
      }
    }
    combinedResults := Top(allResults, maxResults);
  }

  // ---------------------------------------------------------------------
  // What the map keeps

  /** Some entry of `m` has the id of `x` and at least its similarity. */
  predicate Covers(m: seq<CmsResult>, x: CmsResult)
  {
    exists e :: e in m && e.id == x.id && x.similarity <= e.similarity
  }

  /** One upsert keeps the ids distinct, adds nothing but `result`, covers `result` and keeps
      covering what was covered. */
  lemma UpsertFacts(entries: seq<CmsResult>, result: CmsResult)
    ensures DistinctBy(entries, IdOf) ==> DistinctBy(Upsert(entries, result), IdOf)
    ensures forall e :: e in Upsert(entries, result) ==> e in entries || e == result
    ensures Covers(Upsert(entries, result), result)
    ensures forall x :: Covers(entries, x) ==> Covers(Upsert(entries, result), x)
  {
    var u := Upsert(entries, result);
    match IndexOfId(entries, result.id)
    case None =>
      assert u[|entries|] == result;
      forall x | Covers(entries, x) ensures Covers(u, x) {
        var e :| e in entries && e.id == x.id && x.similarity <= e.similarity;
        assert e in u;
      }
    case Some(p) =>
      if result.similarity > entries[p].similarity {
        assert u[p] == result;
        forall e | e in u ensures e in entries || e == result {
          var i :| 0 <= i < |u| && u[i] == e;
          if i != p { assert e == entries[i]; }
        }
        forall x | Covers(entries, x) ensures Covers(u, x) {
          var e :| e in entries && e.id == x.id && x.similarity <= e.similarity;
          var i :| 0 <= i < |entries| && entries[i] == e;
          if i == p { assert u[p].id == x.id; } else { assert u[i] == e; }
        }
      } else {
        assert entries[p] in u;
      }
  }

  lemma {:induction false} MergeAllDistinct(entries: seq<CmsResult>, results: seq<CmsResult>)
    requires DistinctBy(entries, IdOf)
    ensures DistinctBy(MergeAll(entries, results), IdOf)
  {
    if results != [] {
      MergeAllDistinct(entries, results[..|results| - 1]);
      UpsertFacts(MergeAll(entries, results[..|results| - 1]), results[|results| - 1]);
    }
  }

  lemma {:induction false} MergeAllFrom(entries: seq<CmsResult>, results: seq<CmsResult>)
    ensures forall e :: e in MergeAll(entries, results) ==> e in entries || e in results
  {
    if results != [] {
      var init, last := results[..|results| - 1], results[|results| - 1];
      MergeAllFrom(entries, init);
      UpsertFacts(MergeAll(entries, init), last);
      assert results == init + [last];
    }
  }

  lemma {:induction false} MergeAllCovers(entries: seq<CmsResult>, results: seq<CmsResult>)
    ensures forall x :: Covers(entries, x) ==> Covers(MergeAll(entries, results), x)
    ensures forall x :: x in results ==> Covers(MergeAll(entries, results), x)
  {
    if results != [] {
      var init, last := results[..|results| - 1], results[|results| - 1];
      MergeAllCovers(entries, init);
      UpsertFacts(MergeAll(entries, init), last);
      assert results == init + [last];
    }
  }

  /** Merging one query's results keeps the ids distinct, adds only those results, and covers
      every result seen so far. */
  lemma MergeAllFacts(entries: seq<CmsResult>, results: seq<CmsResult>)
    ensures DistinctBy(entries, IdOf) ==> DistinctBy(MergeAll(entries, results), IdOf)
    ensures forall e :: e in MergeAll(entries, results) ==> e in entries || e in results
    ensures forall x :: Covers(entries, x) ==> Covers(MergeAll(entries, results), x)
    ensures forall x :: x in results ==> Covers(MergeAll(entries, results), x)
  {
    if DistinctBy(entries, IdOf) {
      MergeAllDistinct(entries, results);
    }
    MergeAllFrom(entries, results);
    MergeAllCovers(entries, results);
  }

  /** After merging, every document id appears once, every entry comes from one of the lists,
      and every listed result is covered. */
  lemma {:induction false} MergeListsFacts(lists: seq<seq<CmsResult>>)
    ensures DistinctBy(MergeLists(lists), IdOf)
    ensures forall e :: e in MergeLists(lists) ==> exists j :: 0 <= j < |lists| && e in lists[j]
    ensures forall j, x :: 0 <= j < |lists| && x in lists[j] ==> Covers(MergeLists(lists), x)
  {
    if lists != [] {
      var init, last := lists[..|lists| - 1], lists[|lists| - 1];
      MergeListsFacts(init);
      MergeAllFacts(MergeLists(init), last);
      forall e | e in MergeLists(lists) ensures exists j :: 0 <= j < |lists| && e in lists[j] {
        if e !in last {
          var j :| 0 <= j < |init| && e in init[j];
          assert init[j] == lists[j];
        }
      }
      forall j, x | 0 <= j < |lists| && x in lists[j] ensures Covers(MergeLists(lists), x) {
        if j < |init| {
          assert init[j] == lists[j];
        }
      }
    }
  }

  /** Every id of a round appears once, and every entry is a result one of its queries found,
      so at least the threshold when the search is sound. */
  lemma RoundFacts(search: Searcher, queries: seq<string>, maxResults: int, threshold: real)
    ensures DistinctBy(Round(search, queries, maxResults, threshold), IdOf)
    ensures forall e :: e in Round(search, queries, maxResults, threshold) ==>
      exists j :: 0 <= j < |queries| && e in search(queries[j], maxResults, threshold)
    ensures Sound(search) ==>
      forall e :: e in Round(search, queries, maxResults, threshold) ==> threshold <= e.similarity
  {
    var hits := Hits(search, queries, maxResults, threshold);
    MergeListsFacts(hits);
    forall e | e in MergeLists(hits)
      ensures exists j :: 0 <= j < |queries| && e in search(queries[j], maxResults, threshold)
    {
      var k :| 0 <= k < |hits| && e in hits[k];
      assert e in search(queries[k], maxResults, threshold);
    }
  }

  /** Each id keeps the greatest similarity any query found for it at that threshold. */
  lemma RoundKeepsBest(search: Searcher, queries: seq<string>, maxResults: int, threshold: real,
                       e: CmsResult, j: nat, x: CmsResult)
    requires e in Round(search, queries, maxResults, threshold)
    requires j < |queries| && x in search(queries[j], maxResults, threshold) && x.id == e.id
    ensures x.similarity <= e.similarity
  {
    var hits := Hits(search, queries, maxResults, threshold);
    var m := MergeLists(hits);
    MergeListsFacts(hits);
    assert x in hits[j];
    assert Covers(m, x);
    var f :| f in m && f.id == x.id && x.similarity <= f.similarity;
    var a :| 0 <= a < |m| && m[a] == e;
    var b :| 0 <= b < |m| && m[b] == f;
    assert IdOf(m[a]) == IdOf(m[b]);
  }

  // ---------------------------------------------------------------------
  // Which threshold decides

  /** The index of the threshold the controller stops at, from `i` on. */
  function ChosenIndex(search: Searcher, queries: seq<string>, maxResults: int, thresholds: seq<real>,
                       i: nat): (k: nat)
    requires i < |thresholds|
    ensures i <= k < |thresholds|
    ensures |Round(search, queries, maxResults, thresholds[k])| >= 2 || k == |thresholds| - 1
    ensures forall j :: i <= j < k ==> |Round(search, queries, maxResults, thresholds[j])| < 2
    decreases |thresholds| - i
  {
    if |Round(search, queries, maxResults, thresholds[i])| >= 2 || i == |thresholds| - 1 then i
    else ChosenIndex(search, queries, maxResults, thresholds, i + 1)
  }

  /** The map the controller ends with is the round of the chosen threshold alone; earlier
      rounds leave nothing behind. */
  lemma {:induction false} ChosenRound(search: Searcher, queries: seq<string>, maxResults: int,
                                       thresholds: seq<real>, i: nat)
    requires i < |thresholds|
    ensures ChosenFrom(search, queries, maxResults, thresholds, i)
         == Round(search, queries, maxResults, thresholds[ChosenIndex(search, queries, maxResults, thresholds, i)])
    decreases |thresholds| - i
  {
    if !(|Round(search, queries, maxResults, thresholds[i])| >= 2 || i == |thresholds| - 1) {
      ChosenRound(search, queries, maxResults, thresholds, i + 1);
    }
  }

  /** Sorting and cutting keeps the ids distinct, orders by similarity, respects the limit and
      adds nothing. */
  lemma TopFacts(merged: seq<CmsResult>, maxResults: int)
    requires DistinctBy(merged, IdOf)
    ensures SortedDesc(Top(merged, maxResults), SimilarityOf)
    ensures DistinctBy(Top(merged, maxResults), IdOf)
    ensures maxResults >= 0 ==> |Top(merged, maxResults)| <= maxResults
    ensures forall e :: e in Top(merged, maxResults) ==> e in merged
  {
    var sorted := SortDesc(merged, SimilarityOf);
    var r := Top(merged, maxResults);
    SortedPrefix(sorted, SimilarityOf, |r|);
    SortDescDistinct(merged, SimilarityOf, IdOf);
    SortedMembers(merged, SimilarityOf);
    assert forall i :: 0 <= i < |r| ==> r[i] == sorted[i];
  }

  /** The controller's answer: sorted best first, within the limit, each document once, and
      drawn from the round of the first threshold, in the order tried, that found at least
      two documents (the last one otherwise), each document with the best similarity the
      queries found for it there. */
  lemma DynamicSearchFacts(search: Searcher, queries: seq<string>, maxResults: int,
                           initialThreshold: real, minThreshold: real)
    ensures var ts := Thresholds(initialThreshold, minThreshold);
      var r := DynamicSearch(search, queries, maxResults, ts);
      var k := ChosenIndex(search, queries, maxResults, ts, 0);
      && SortedDesc(r, SimilarityOf)
      && DistinctBy(r, IdOf)
      && (maxResults >= 0 ==> |r| <= maxResults)
      && (forall j :: 0 <= j < k ==> |Round(search, queries, maxResults, ts[j])| < 2)
      && (forall e :: e in r ==> e in Round(search, queries, maxResults, ts[k]))
      && (Sound(search) ==> forall e :: e in r ==> ts[k] <= e.similarity)
      && (forall e, j, x ::
            e in r && 0 <= j < |queries| && x in search(queries[j], maxResults, ts[k]) && x.id == e.id
            ==> x.similarity <= e.similarity)
  {
    var ts := Thresholds(initialThreshold, minThreshold);
    var k := ChosenIndex(search, queries, maxResults, ts, 0);
    var merged := Round(search, queries, maxResults, ts[k]);
    ChosenRound(search, queries, maxResults, ts, 0);
    RoundFacts(search, queries, maxResults, ts[k]);
    TopFacts(merged, maxResults);
    var r := Top(merged, maxResults);
    forall e, j, x | e in r && 0 <= j < |queries| && x in search(queries[j], maxResults, ts[k]) && x.id == e.id
      ensures x.similarity <= e.similarity
    {
      RoundKeepsBest(search, queries, maxResults, ts[k], e, j, x);
    }
  }
}
