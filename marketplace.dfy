/** The listing logic of the marketplace page (app/marketplace/page.tsx): the three optional
    filters, the category list and the counts. The fetched documents and the search parameters
    are inputs. */
module Marketplace {
  import opened Strings
  import opened Collections

  /** A `DocumentLibrary` row as far as the listing reads it. */
  datatype LibraryDocument = LibraryDocument(
    title: string, description: Option<string>, tags: Option<seq<string>>,
    category: Option<string>, isFree: bool)

  /** The `search`, `category` and `type` query parameters. */
  datatype SearchParams = SearchParams(search: Option<string>, category: Option<string>, kind: Option<string>)

  const NoParams := SearchParams(None, None, None)

  /** The lowercased title, description or one of the lowercased tags contains `term`. */
  predicate MatchesSearch(d: LibraryDocument, term: string)
  {
    Contains(ToLower(d.title), term)
    || (d.description.Some? && Contains(ToLower(d.description.value), term))
    || (d.tags.Some? && exists i :: 0 <= i < |d.tags.value| && Contains(ToLower(d.tags.value[i]), term))
  }

  predicate SearchKeeps(search: Option<string>, d: LibraryDocument)
  {
    Present(search) ==> MatchesSearch(d, ToLower(search.value))
  }

  predicate CategoryKeeps(category: Option<string>, d: LibraryDocument)
  {
    Present(category) ==> d.category == category
  }

  /** `free` keeps the free documents, `paid` the others, and any other value keeps all. */
  predicate KindKeeps(kind: Option<string>, d: LibraryDocument)
  {
    Present(kind) ==> (kind.value == "free" ==> d.isFree) && (kind.value == "paid" ==> !d.isFree)
  }

  /** A document is listed when it passes all three filters. */
  predicate Listed(params: SearchParams, d: LibraryDocument)
  {
    SearchKeeps(params.search, d) && CategoryKeeps(params.category, d) && KindKeeps(params.kind, d)
  }

  // The callbacks of the three `filter` calls.

  function SearchFilter(searchTerm: string): LibraryDocument -> bool
  {
    (d: LibraryDocument) => MatchesSearch(d, searchTerm)
  }

  function CategoryFilter(category: Option<string>): LibraryDocument -> bool
  {
    (d: LibraryDocument) => d.category == category
  }

  function KindFilter(free: bool): LibraryDocument -> bool
  {
    (d: LibraryDocument) => d.isFree == free
  }

  // What the list holds after the first filter, after the first two, and after all three.

  function AfterSearch(params: SearchParams): LibraryDocument -> bool
  {
    (d: LibraryDocument) => SearchKeeps(params.search, d)
  }

  function AfterCategory(params: SearchParams): LibraryDocument -> bool
  {
    (d: LibraryDocument) => SearchKeeps(params.search, d) && CategoryKeeps(params.category, d)
  }

  function ListedFilter(params: SearchParams): LibraryDocument -> bool
  {
    (d: LibraryDocument) => Listed(params, d)
  }

  lemma SearchStep(documents: seq<LibraryDocument>, params: SearchParams)
    ensures Present(params.search) ==>
      Filter(documents, SearchFilter(ToLower(params.search.value))) == Filter(documents, AfterSearch(params))
    ensures !Present(params.search) ==> documents == Filter(documents, AfterSearch(params))
  {
    if Present(params.search) {
      FilterSame(documents, SearchFilter(ToLower(params.search.value)), AfterSearch(params));
    } else {
      FilterAll(documents, AfterSearch(params));
    }
  }

  lemma CategoryStep(documents: seq<LibraryDocument>, params: SearchParams)
    ensures Present(params.category) ==>
      Filter(Filter(documents, AfterSearch(params)), CategoryFilter(params.category))
      == Filter(documents, AfterCategory(params))
    ensures !Present(params.category) ==>
      Filter(documents, AfterSearch(params)) == Filter(documents, AfterCategory(params))
  {
    if Present(params.category) {
      FilterTwice(documents, AfterSearch(params), CategoryFilter(params.category), AfterCategory(params));
    } else {
      FilterSame(documents, AfterSearch(params), AfterCategory(params));
    }
  }

  lemma KindStep(documents: seq<LibraryDocument>, params: SearchParams)
    ensures Present(params.kind) && params.kind.value in {"free", "paid"} ==>
      Filter(Filter(documents, AfterCategory(params)), KindFilter(params.kind.value == "free"))
      == Filter(documents, ListedFilter(params))
    ensures !(Present(params.kind) && params.kind.value in {"free", "paid"}) ==>
      Filter(documents, AfterCategory(params)) == Filter(documents, ListedFilter(params))
  {
    if Present(params.kind) && params.kind.value in {"free", "paid"} {
      FilterTwice(documents, AfterCategory(params), KindFilter(params.kind.value == "free"),
                  ListedFilter(params));
    } else {
      FilterSame(documents, AfterCategory(params), ListedFilter(params));
    }
  }

  /** The `filteredDocuments` block: each present parameter narrows the list in turn. */
  method FilterDocuments(documents: seq<LibraryDocument>, params: SearchParams)
    returns (filteredDocuments: seq<LibraryDocument>)
    ensures filteredDocuments == Filter(documents, ListedFilter(params))
  {
    SearchStep(documents, params);
    CategoryStep(documents, params);
    KindStep(documents, params);
    filteredDocuments := documents;
    if Present(params.search) {
      var searchTerm := ToLower(params.search.value);
      filteredDocuments := Filter(filteredDocuments, SearchFilter(searchTerm));
    }
    if Present(params.category) {
      filteredDocuments := Filter(filteredDocuments, CategoryFilter(params.category));
    }
    if Present(params.kind) {
      if params.kind.value == "free" {
        filteredDocuments := Filter(filteredDocuments, KindFilter(true));
      } else if params.kind.value == "paid" {
        filteredDocuments := Filter(filteredDocuments, KindFilter(false));
      }
    }
  }

  /** The listing is the fetched list with the documents that fail a filter left out, in
      their order; without parameters it is the whole list. */
  lemma ListingIsSubsequence(documents: seq<LibraryDocument>, params: SearchParams)
    ensures Subsequence(Filter(documents, ListedFilter(params)), documents)
    ensures params == NoParams ==> Filter(documents, ListedFilter(params)) == documents
  {
    FilterSubsequence(documents, ListedFilter(params));
    if params == NoParams {
      FilterAll(documents, ListedFilter(params));
    }
  }

  /** `documents.map(doc => doc.category).filter(Boolean)`. */
  function NamedCategories(documents: seq<LibraryDocument>): (r: seq<string>)
    ensures forall i :: 0 <= i < |r| ==>
      r[i] != "" && exists j :: 0 <= j < |documents| && documents[j].category == Some(r[i])
    ensures forall j :: 0 <= j < |documents| && Present(documents[j].category) ==>
      documents[j].category.value in r
  {
    if documents == [] then []
    else
      var init := documents[..|documents| - 1];
      var last := documents[|documents| - 1];
      assert forall j :: 0 <= j < |init| ==> init[j] == documents[j];
      NamedCategories(init) + (if Present(last.category) then [last.category.value] else [])
  }

  /** `categories`: each non-empty category of any fetched document, once, first seen first. */
  function Categories(documents: seq<LibraryDocument>): (r: seq<string>)
    ensures NoDuplicates(r)
    ensures forall c :: c in r <==>
      c != "" && exists j :: 0 <= j < |documents| && documents[j].category == Some(c)
  {
    DedupDistinct(NamedCategories(documents));
    Dedup(NamedCategories(documents))
  }

  /** The categories of all documents are those of all but the last, then the last's. */
  lemma NamedCategoriesSnoc(documents: seq<LibraryDocument>)
    requires documents != []
    ensures var last := documents[|documents| - 1];
      NamedCategories(documents) == NamedCategories(documents[..|documents| - 1])
        + (if Present(last.category) then [last.category.value] else [])
  {
  }

  /** The category at position `p` comes from a document whose predecessors yield exactly the
      categories before position `p`. */
  lemma {:induction false} NamedCategorySource(documents: seq<LibraryDocument>, p: nat)
    requires p < |NamedCategories(documents)|
    ensures exists k ::
      && 0 <= k < |documents| && documents[k].category == Some(NamedCategories(documents)[p])
      && NamedCategories(documents[..k]) == NamedCategories(documents)[..p]
  {
    var init, last := documents[..|documents| - 1], documents[|documents| - 1];
    var n, m := NamedCategories(documents), NamedCategories(init);
    NamedCategoriesSnoc(documents);
    if p < |m| {
      NamedCategorySource(init, p);
      var k :| 0 <= k < |init| && init[k].category == Some(m[p]) && NamedCategories(init[..k]) == m[..p];
      assert documents[..k] == init[..k] && documents[k] == init[k];
      assert n[p] == m[p] && n[..p] == m[..p];
      assert documents[k].category == Some(n[p]) && NamedCategories(documents[..k]) == n[..p];
    } else {
      var k := |documents| - 1;
      assert documents[..k] == init && n[..p] == m;
      assert documents[k].category == Some(n[p]) && NamedCategories(documents[..k]) == n[..p];
    }
  }

  /** A category first met in an earlier document than another is listed before it. */
  predicate CategorySeenBefore(documents: seq<LibraryDocument>, a: string, b: string)
  {
    exists k ::
      && 0 <= k < |documents| && documents[k].category == Some(a)
      && forall m :: 0 <= m < k ==> documents[m].category != Some(b)
  }

  /** `categories` lists the categories in the order the documents first carry them. */
  lemma CategoriesOrder(documents: seq<LibraryDocument>)
    ensures forall i, j :: 0 <= i < j < |Categories(documents)| ==>
      CategorySeenBefore(documents, Categories(documents)[i], Categories(documents)[j])
  {
    var n, r := NamedCategories(documents), Categories(documents);
    DedupOrder(n);
    forall i, j | 0 <= i < j < |r| ensures CategorySeenBefore(documents, r[i], r[j]) {
      var p :| 0 <= p < |n| && n[p] == r[i] && r[j] !in n[..p];
      NamedCategorySource(documents, p);
      var k :| 0 <= k < |documents| && documents[k].category == Some(n[p])
        && NamedCategories(documents[..k]) == n[..p];
      assert r[j] in r;
      forall m | 0 <= m < k ensures documents[m].category != Some(r[j]) {
        assert documents[..k][m] == documents[m];
      }
    }
  }

  /** The categories come from every fetched document, whatever the filters keep. */
  lemma CategoriesIgnoreFilters(documents: seq<LibraryDocument>, params: SearchParams, c: string, j: nat)
    requires j < |documents| && documents[j].category == Some(c) && c != ""
    requires !Listed(params, documents[j])
    ensures c in Categories(documents)
  {
  }

  datatype Counts = Counts(total: nat, free: nat, paid: nat)

  /** `totalDocuments`, `freeDocuments` and `paidDocuments` of the filtered list. */
  function ListingCounts(filteredDocuments: seq<LibraryDocument>): (r: Counts)
    ensures r.total == |filteredDocuments|
    ensures r.free + r.paid == r.total
  {
    FilterSplit(filteredDocuments, KindFilter(true), KindFilter(false));
    Counts(|filteredDocuments|, |Filter(filteredDocuments, KindFilter(true))|,
           |Filter(filteredDocuments, KindFilter(false))|)
  }
}
