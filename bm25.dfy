/** The lexical ranker of lib/ai/bm25.ts: a tokenizer, title-weighted preprocessing, an Okapi
    BM25 index (document frequencies, document lengths, average length) and the `BM25Search`
    wrapper that holds the indexed documents. Counts are exact integers; the idf logarithm is
    an abstract function `ln` and scores are exact reals. */
module Bm25 {
  import opened Strings
  import opened Collections

  // ---------------------------------------------------------------------
  // Tokenizing

  /** JavaScript's `\w`: ASCII letters, digits and underscore only. */
  predicate IsWordChar(c: char) {
    ('a' <= c <= 'z') || ('A' <= c <= 'Z') || ('0' <= c <= '9') || c == '_'
  }

  /** The characters a token can be made of: `\w` once upper case is gone. */
  predicate IsTokenChar(c: char) {
    ('a' <= c <= 'z') || ('0' <= c <= '9') || c == '_'
  }

  /** `replace(/[^\w\s]/g, ' ')` on one character. */
  function Sanitize(c: char): (r: char)
    ensures IsWordChar(r) || IsSpace(r)
    ensures IsWordChar(c) || IsSpace(c) ==> r == c
  {
    if IsWordChar(c) || IsSpace(c) then c else ' '
  }

  function SanitizeAll(s: string): (r: string)
    ensures |r| == |s|
    ensures forall i :: 0 <= i < |s| ==> r[i] == Sanitize(s[i])
  {
    seq(|s|, i requires 0 <= i < |s| => Sanitize(s[i]))
  }

  /** `tokenize`: lower-case, replace every non-word, non-space character by a space, split on
      whitespace and keep the pieces longer than two characters. */
  function Tokenize(text: string): (r: seq<string>)
    ensures forall i :: 0 <= i < |r| ==> |r[i]| > 2
    ensures forall i, k :: 0 <= i < |r| && 0 <= k < |r[i]| ==> IsTokenChar(r[i][k])
  {
    var cleaned := SanitizeAll(ToLower(text));
    assert forall c :: c in cleaned ==> (IsWordChar(c) || IsSpace(c)) && !IsAsciiUpper(c);
    LongWords(cleaned)
  }

  lemma {:induction false} SplitWithoutSeparator(s: string, isSep: char -> bool)
    requires forall i :: 0 <= i < |s| ==> !isSep(s[i])
    ensures SplitOn(s, isSep) == [s]
  {
    if |s| > 0 {
      SplitWithoutSeparator(s[1..], isSep);
      assert [s[0]] + s[1..] == s;
    }
  }

  /** A well-formed token is its own tokenization: tokenizing is idempotent on single tokens. */
  lemma TokenizeToken(w: string)
    requires |w| > 2 && forall i :: 0 <= i < |w| ==> IsTokenChar(w[i])
    ensures Tokenize(w) == [w]
  {
    assert ToLower(w) == w;
    assert SanitizeAll(w) == w;
    SplitWithoutSeparator(w, IsSpace);
    assert [w][..0] == [];
  }

  /** JavaScript's `\w` is ASCII-only, so every character outside ASCII, a Vietnamese letter
      with a diacritic included, ends up as a separator: "nghi\U{1EC7}m" falls apart into
      "nghi" and "m". */
  lemma NonAsciiSeparates(text: string, i: nat)
    requires i < |text| && text[i] as int >= 128
    ensures IsSpace(SanitizeAll(ToLower(text))[i])
  {
  }

  // ---------------------------------------------------------------------
  // Term counts

  /** `doc.filter(t => t === term).length`. */
  function Occurrences(doc: seq<string>, term: string): (n: nat)
    ensures n <= |doc|
    ensures n > 0 <==> term in doc
  {
    if doc == [] then 0
    else
      assert doc == doc[..|doc| - 1] + [doc[|doc| - 1]];
      Occurrences(doc[..|doc| - 1], term) + (if doc[|doc| - 1] == term then 1 else 0)
  }

  lemma {:induction false} OccurrencesConcat(a: seq<string>, b: seq<string>, term: string)
    ensures Occurrences(a + b, term) == Occurrences(a, term) + Occurrences(b, term)
  {
    if b == [] {
      assert a + b == a;
    } else {
      assert (a + b)[..|a + b| - 1] == a + b[..|b| - 1];
      OccurrencesConcat(a, b[..|b| - 1], term);
    }
  }

  /** `preprocessDocument`: the title tokens three times, then the content tokens. */
  function PreprocessDocument(title: string, content: string): (r: seq<string>)
    ensures |r| == 3 * |Tokenize(title)| + |Tokenize(content)|
    ensures forall w :: w in r <==> w in Tokenize(title) || w in Tokenize(content)
  {
    var t := Tokenize(title);
    t + t + t + Tokenize(content)
  }

  /** Each title occurrence of a term weighs three content occurrences. */
  lemma TitleWeight(title: string, content: string, term: string)
    ensures Occurrences(PreprocessDocument(title, content), term)
         == 3 * Occurrences(Tokenize(title), term) + Occurrences(Tokenize(content), term)
  {
    var t := Tokenize(title);
    OccurrencesConcat(t + t + t, Tokenize(content), term);
    OccurrencesConcat(t + t, t, term);
    OccurrencesConcat(t, t, term);
  }

  // ---------------------------------------------------------------------
  // Index statistics

  /** The number of documents that contain `term`. */
  function DocFreq(docs: seq<seq<string>>, term: string): (n: nat)
    ensures n <= |docs|
    ensures n > 0 <==> exists i :: 0 <= i < |docs| && term in docs[i]
  {
    if docs == [] then 0
    else
      var init := docs[..|docs| - 1];
      assert forall i :: 0 <= i < |init| ==> init[i] == docs[i];
      DocFreq(init, term) + (if term in docs[|docs| - 1] then 1 else 0)
  }

  function TotalLength(docs: seq<seq<string>>): nat
  {
    if docs == [] then 0 else TotalLength(docs[..|docs| - 1]) + |docs[|docs| - 1]|
  }

  lemma {:induction false} TotalAtLeast(docs: seq<seq<string>>, i: nat)
    requires i < |docs|
    ensures TotalLength(docs) >= |docs[i]|
  {
    if i < |docs| - 1 {
      TotalAtLeast(docs[..|docs| - 1], i);
    }
  }

  /** `totalLength / documents.length`; an empty corpus divides by zero, which the model
      replaces by 0 (the value is never read when there are no documents). */
  function AvgLength(docs: seq<seq<string>>): real
  {
    if |docs| == 0 then 0.0 else TotalLength(docs) as real / |docs| as real
  }

  lemma AvgPositive(docs: seq<seq<string>>, i: nat)
    requires i < |docs| && docs[i] != []
    ensures AvgLength(docs) > 0.0
  {
    TotalAtLeast(docs, i);
  }

  /** The argument of the idf logarithm, `(N - df + 0.5) / (df + 0.5)`. */
  function IdfRatio(n: nat, df: nat): (r: real)
    ensures df <= n ==> r > 0.0
  {
    (n as real - df as real + 0.5) / (df as real + 0.5)
  }

  const K1: real := 1.2
  const B: real := 0.75

  /** One query term's share of a document's score, given its term frequency `tf`, its idf,
      the document length and the average length. */
  function Contribution(tf: nat, idf: real, docLength: nat, avg: real): real
    requires tf > 0 ==> avg > 0.0
  {
    if tf == 0 then 0.0
    else
      var ratio := docLength as real / avg;
      assert ratio >= 0.0;
      idf * ((tf as real * (K1 + 1.0)) / (tf as real + K1 * (1.0 - B + B * ratio)))
  }

  /** `this.idf.get(term) || 0`. */
  function IdfOf(idf: map<string, real>, term: string): real
  {
    if term in idf then idf[term] else 0.0
  }

  /** The BM25 score of one document for the query terms, summed in query order. */
  function TermsScore(doc: seq<string>, docLength: nat, avg: real, idf: map<string, real>,
                      query: seq<string>): real
    requires doc != [] ==> avg > 0.0
  {
    if query == [] then 0.0
    else
      var term := query[|query| - 1];
      TermsScore(doc, docLength, avg, idf, query[..|query| - 1])
        + Contribution(Occurrences(doc, term), IdfOf(idf, term), docLength, avg)
  }

  /** A document that contains none of the query terms scores exactly 0. */
  lemma {:induction false} NoMatchScoresZero(doc: seq<string>, docLength: nat, avg: real,
                                             idf: map<string, real>, query: seq<string>)
    requires doc != [] ==> avg > 0.0
    requires forall i :: 0 <= i < |query| ==> query[i] !in doc
    ensures TermsScore(doc, docLength, avg, idf, query) == 0.0
  {
    if query != [] {
      NoMatchScoresZero(doc, docLength, avg, idf, query[..|query| - 1]);
    }
  }

  /** The `reduce` of `buildIndex`: each document's length, in order, and their sum. */
  method DocumentLengths(documents: seq<seq<string>>) returns (lengths: seq<nat>, total: nat)
    ensures |lengths| == |documents|
    ensures forall j :: 0 <= j < |documents| ==> lengths[j] == |documents[j]|
    ensures total == TotalLength(documents)
  {
    lengths, total := [], 0;
    var i := 0;
    while i < |documents|
      invariant i <= |documents|
      invariant |lengths| == i && forall j :: 0 <= j < i ==> lengths[j] == |documents[j]|
      invariant total == TotalLength(documents[..i])
    {
      lengths := lengths + [|documents[i]|];
      total := total + |documents[i]|;
      assert documents[..i + 1][..i] == documents[..i];
      i := i + 1;
    }
    assert documents[..i] == documents;
  }

  /** Counts one more document for each term of `doc`, each distinct term once. */
  method CountDistinctTerms(freqs: map<string, nat>, doc: seq<string>, ghost prior: seq<seq<string>>)
    returns (r: map<string, nat>)
    requires forall t :: t in freqs <==> DocFreq(prior, t) > 0
    requires forall t :: t in freqs ==> freqs[t] == DocFreq(prior, t)
    ensures forall t :: t in r <==> DocFreq(prior + [doc], t) > 0
    ensures forall t :: t in r ==> r[t] == DocFreq(prior + [doc], t)
  {
    var unique := set t | t in doc;
    var pending := unique;
    ghost var done: set<string> := {};
    r := freqs;
    while pending != {}
      invariant pending + done == unique && pending !! done
      invariant forall t :: t in r <==> t in freqs || t in done
      invariant forall t :: t in r ==> r[t] == (if t in freqs then freqs[t] else 0) + (if t in done then 1 else 0)
      decreases pending
    {
      var t :| t in pending;
      var seen := if t in r then r[t] else 0;
      r := r[t := seen + 1];
      pending := pending - {t};
      done := done + {t};
    }
    assert (prior + [doc])[..|prior|] == prior;
  }

  /** The document-frequency loop of `buildIndex`. */
  method DocumentFrequencies(documents: seq<seq<string>>) returns (freqs: map<string, nat>)
    ensures forall t :: t in freqs <==> DocFreq(documents, t) > 0
    ensures forall t :: t in freqs ==> freqs[t] == DocFreq(documents, t)
  {
    freqs := map[];
    var i := 0;
    while i < |documents|
      invariant i <= |documents|
      invariant forall t :: t in freqs <==> DocFreq(documents[..i], t) > 0
      invariant forall t :: t in freqs ==> freqs[t] == DocFreq(documents[..i], t)
    {
      freqs := CountDistinctTerms(freqs, documents[i], documents[..i]);
      assert documents[..i] + [documents[i]] == documents[..i + 1];
      i := i + 1;
    }
    assert documents[..i] == documents;
  }

  /** The idf loop of `buildIndex`: `ln((N - df + 0.5) / (df + 0.5))` for every indexed term. */
  method IdfValues(n: nat, freqs: map<string, nat>, ln: real -> real) returns (idfs: map<string, real>)
    ensures idfs.Keys == freqs.Keys
    ensures forall t :: t in idfs ==> idfs[t] == ln(IdfRatio(n, freqs[t]))
  {
    idfs := map[];
    var keys := freqs.Keys;
    while keys != {}
      invariant keys <= freqs.Keys
      invariant idfs.Keys == freqs.Keys - keys
      invariant forall t :: t in idfs ==> idfs[t] == ln(IdfRatio(n, freqs[t]))
      decreases keys
    {
      var t :| t in keys;
      var freq := freqs[t];
      idfs := idfs[t := ln((n as real - freq as real + 0.5) / (freq as real + 0.5))];
      keys := keys - {t};
    }
  }

  /** The Okapi BM25 index over a corpus of token lists (`k1 = 1.2`, `b = 0.75`). */
  class BM25 {
    const documents: seq<seq<string>>
    const ln: real -> real
    var docFreqs: map<string, nat>
    var idf: map<string, real>
    var docLengths: seq<nat>
    var avgDocLength: real

    /** What `buildIndex` establishes. */
    ghost predicate Valid()
      reads this
    {
      && |docLengths| == |documents|
      && (forall i :: 0 <= i < |documents| ==> docLengths[i] == |documents[i]|)
      && avgDocLength == AvgLength(documents)
      && (forall i :: 0 <= i < |documents| && documents[i] != [] ==> avgDocLength > 0.0)
      && (forall t :: t in docFreqs <==> DocFreq(documents, t) > 0)
      && (forall t :: t in docFreqs ==> docFreqs[t] == DocFreq(documents, t))
      && idf.Keys == docFreqs.Keys
      && (forall t :: t in idf ==> idf[t] == ln(IdfRatio(|documents|, docFreqs[t])))
    }

    constructor (documents: seq<seq<string>>, ln: real -> real)
      ensures this.documents == documents && this.ln == ln
      ensures Valid()
    {
      this.documents := documents;
      this.ln := ln;
      docFreqs := map[];
      idf := map[];
      docLengths := [];
      avgDocLength := 0.0;
      new;
      BuildIndex();
    }

    /** `buildIndex`: document lengths and their average, document frequencies, idf values. */
    method BuildIndex()
      modifies this
      ensures Valid()
    {
      var lengths, total := DocumentLengths(documents);
      var avg := if |documents| == 0 then 0.0 else total as real / |documents| as real;
      forall j | 0 <= j < |documents| && documents[j] != [] ensures avg > 0.0 {
        AvgPositive(documents, j);
      }
      var freqs := DocumentFrequencies(documents);
      var idfs := IdfValues(|documents|, freqs, ln);
      docLengths := lengths;
      avgDocLength := avg;
      docFreqs := freqs;
      idf := idfs;
    }

    /** Every indexed term occurs in at least one and at most all of the documents. */
    lemma DocFreqBounds(t: string)
      requires Valid() && t in docFreqs
      ensures 1 <= docFreqs[t] <= |documents|
      ensures exists i :: 0 <= i < |documents| && t in documents[i]
    {
    }

    /** The score of every document for `query`, by index. */
    function Scores(query: seq<string>): (r: seq<real>)
      reads this
      requires Valid()
      ensures |r| == |documents|
      ensures forall i :: 0 <= i < |documents| ==>
        r[i] == TermsScore(documents[i], docLengths[i], avgDocLength, idf, query)
    {
      seq(|documents|, i requires 0 <= i < |documents| && Valid() reads this =>
        TermsScore(documents[i], docLengths[i], avgDocLength, idf, query))
    }

    /** The body of the `map` in `search`: one document's score, accumulated term by term. */
    method ScoreDocument(doc: seq<string>, docLength: nat, query: seq<string>) returns (score: real)
      requires doc != [] ==> avgDocLength > 0.0
      ensures score == TermsScore(doc, docLength, avgDocLength, idf, query)
    {
      score := 0.0;
      var q := 0;
      while q < |query|
        invariant q <= |query|
        invariant score == TermsScore(doc, docLength, avgDocLength, idf, query[..q])
      {
        var term := query[q];
        var termFreq := Occurrences(doc, term);
        var termIdf := if term in idf then idf[term] else 0.0;
        if termFreq > 0 {
          var numerator := termFreq as real * (K1 + 1.0);
          var denominator := termFreq as real
            + K1 * (1.0 - B + B * (docLength as real / avgDocLength));
          score := score + termIdf * (numerator / denominator);
        }
        assert query[..q + 1][..q] == query[..q];
        q := q + 1;
      }
      assert query[..q] == query;
    }

    /** `search`: one score per document, aligned with the documents by index. */
    method Search(query: seq<string>) returns (scores: seq<real>)
      requires Valid()
      ensures scores == Scores(query)
    {
      scores := [];
      var d := 0;
      while d < |documents|
        invariant d <= |documents| && |scores| == d
        invariant forall j :: 0 <= j < d ==>
          scores[j] == TermsScore(documents[j], docLengths[j], avgDocLength, idf, query)
      {
        var score := ScoreDocument(documents[d], docLengths[d], query);
        scores := scores + [score];
        d := d + 1;
      }
    }
  }

  // ---------------------------------------------------------------------
  // The search wrapper

  /** A document as handed to `addDocuments`; an absent category or tag list is `None`. */
  datatype SourceDocument = SourceDocument(
    id: string, title: string, content: string, kind: string,
    category: Option<string>, tags: Option<seq<string>>)

  /** A document together with its preprocessed tokens. */
  datatype IndexedDocument = IndexedDocument(source: SourceDocument, tokens: seq<string>)

  /** A search hit: the document's own fields and its score, without its tokens. */
  datatype Bm25Result = Bm25Result(document: SourceDocument, score: real)

  function ScoreOf(r: Bm25Result): real { r.score }

  function Index(docs: seq<SourceDocument>): (r: seq<IndexedDocument>)
    ensures |r| == |docs|
    ensures forall i :: 0 <= i < |docs| ==>
      r[i].source == docs[i] && r[i].tokens == PreprocessDocument(docs[i].title, docs[i].content)
  {
    seq(|docs|, i requires 0 <= i < |docs| =>
      IndexedDocument(docs[i], PreprocessDocument(docs[i].title, docs[i].content)))
  }

  function Corpus(docs: seq<IndexedDocument>): (r: seq<seq<string>>)
    ensures |r| == |docs| && forall i :: 0 <= i < |docs| ==> r[i] == docs[i].tokens
  {
    seq(|docs|, i requires 0 <= i < |docs| => docs[i].tokens)
  }

  /** `scores.map((score, index) => ({...documents[index], score}))`. */
  function Scored(docs: seq<IndexedDocument>, scores: seq<real>): (r: seq<Bm25Result>)
    requires |scores| == |docs|
    ensures |r| == |docs|
    ensures forall i :: 0 <= i < |docs| ==> r[i] == Bm25Result(docs[i].source, scores[i])
  {
    seq(|docs|, i requires 0 <= i < |docs| => Bm25Result(docs[i].source, scores[i]))
  }

  /** `filter(result => result.score > 0)`. */
  function PositiveOnly(rs: seq<Bm25Result>): (r: seq<Bm25Result>)
    ensures |r| <= |rs|
    ensures forall x :: x in r <==> x in rs && x.score > 0.0
  {
    if rs == [] then []
    else
      var last := rs[|rs| - 1];
      assert rs == rs[..|rs| - 1] + [last];
      PositiveOnly(rs[..|rs| - 1]) + (if last.score > 0.0 then [last] else [])
  }

  /** The positive-score hits, best first, at most `limit` of them (`slice(0, limit)`). */
  function Ranked(docs: seq<IndexedDocument>, scores: seq<real>, limit: int): (r: seq<Bm25Result>)
    requires |scores| == |docs|
    ensures |r| <= |docs| && (limit >= 0 ==> |r| <= limit)
    ensures SortedDesc(r, ScoreOf)
    ensures forall x :: x in r ==> x.score > 0.0
    ensures forall x :: x in r ==> exists i :: 0 <= i < |docs| && x == Bm25Result(docs[i].source, scores[i])
  {
    var hits := PositiveOnly(Scored(docs, scores));
    var sorted := SortDesc(hits, ScoreOf);
    SortedMembers(hits, ScoreOf);
    SortedPrefix(sorted, ScoreOf, SliceEnd(|sorted|, limit));
    SlicePrefix(sorted, limit)
  }

  /** With a limit no smaller than the number of positive scores, every document that scores
      above 0 is returned. */
  lemma RankedComplete(docs: seq<IndexedDocument>, scores: seq<real>, limit: int, i: nat)
    requires |scores| == |docs| && i < |docs| && scores[i] > 0.0
    requires limit >= |PositiveOnly(Scored(docs, scores))|
    ensures Bm25Result(docs[i].source, scores[i]) in Ranked(docs, scores, limit)
  {
    var scored := Scored(docs, scores);
    var x := Bm25Result(docs[i].source, scores[i]);
    assert scored[i] == x;
    var hits := PositiveOnly(scored);
    assert x in hits;
    var sorted := SortDesc(hits, ScoreOf);
    SortedMembers(hits, ScoreOf);
    assert SlicePrefix(sorted, limit) == sorted;
    assert Ranked(docs, scores, limit) == sorted;
  }

  /** `BM25Search`: the documents of the last `addDocuments` call and their index. */
  class BM25Search {
    var bm25: BM25?
    var documents: seq<IndexedDocument>
    const ln: real -> real

    ghost predicate Valid()
      reads this, bm25
    {
      bm25 != null ==> bm25.Valid() && bm25.documents == Corpus(documents)
    }

    /** A fresh searcher has no index; `ln` is the logarithm its indexes use. */
    constructor (ln: real -> real)
      ensures bm25 == null && documents == [] && this.ln == ln
      ensures Valid()
    {
      bm25 := null;
      documents := [];
      this.ln := ln;
    }

    /** `addDocuments`: replaces the document set by the new batch and indexes it. */
    method AddDocuments(docs: seq<SourceDocument>)
      modifies this
      ensures documents == Index(docs)
      ensures bm25 != null && fresh(bm25) && bm25.ln == ln
      ensures Valid()
    {
      documents := Index(docs);
      bm25 := new BM25(Corpus(documents), ln);
    }

    /** `search`: nothing without an index or documents, else the ranked positive hits. */
    method Search(query: string, limit: int) returns (results: seq<Bm25Result>)
      requires Valid()
      ensures bm25 == null || documents == [] ==> results == []
      ensures bm25 != null && documents != [] ==>
        results == Ranked(documents, bm25.Scores(Tokenize(query)), limit)
    {
      if bm25 == null || |documents| == 0 {
        return [];
      }
      var queryTokens := Tokenize(query);
      var scores := bm25.Search(queryTokens);
      results := Ranked(documents, scores, limit);
    }

    function GetDocumentCount(): (n: nat)
      reads this
      ensures n == |documents|
    {
      |documents|
    }
  }

  /** `getDocumentCount` after `addDocuments` is the size of that batch, not a running total. */
  method AddThenCount(s: BM25Search, first: seq<SourceDocument>, second: seq<SourceDocument>)
    returns (n: nat)
    modifies s
    ensures n == |second|
  {
    s.AddDocuments(first);
    s.AddDocuments(second);
    n := s.GetDocumentCount();
  }
}
