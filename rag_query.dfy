/** Query normalisation and expansion of lib/ai/rag.ts (`normalizeQuery`, `expandQuery`). */
module RagQuery {
  import opened Strings
  import opened Collections

  /** One `key: value` pair of an object literal; `Object.entries` yields them in order. */
  datatype Entry = Entry(key: string, value: string)

  /** The Vietnamese query expansions, in declaration order. */
  const VietnameseExpansions: seq<Entry> := [
    Entry("năm", "Bạn đã sống và làm việc ở Canada bao nhiêu năm"),
    Entry("bao nhiêu năm", "Bạn đã sống và làm việc ở Canada bao nhiêu năm"),
    Entry("canada", "thông tin về Canada định cư"),
    Entry("định cư", "thông tin về định cư Canada"),
    Entry("express entry", "chương trình Express Entry Canada"),
    Entry("pnp", "chương trình Provincial Nominee Program"),
    Entry("việc làm", "tìm việc làm ở Canada"),
    Entry("cv", "viết CV theo chuẩn Canada")
  ]

  /** The English translations of common Vietnamese terms, in declaration order. */
  const Translations: seq<Entry> := [
    Entry("định cư", "immigration"),
    Entry("canada", "canada"),
    Entry("việc làm", "job employment work"),
    Entry("năm", "years year"),
    Entry("kinh nghiệm", "experience")
  ]

  // ---------------------------------------------------------------------
  // Normalisation

  /** The index of the first entry whose key occurs in `s`. */
  function FirstIndex(table: seq<Entry>, s: string): (r: Option<nat>)
    ensures r.Some? ==> r.value < |table| && Contains(s, table[r.value].key)
    ensures r.Some? ==> forall j :: 0 <= j < r.value ==> !Contains(s, table[j].key)
    ensures r.None? ==> forall j :: 0 <= j < |table| ==> !Contains(s, table[j].key)
  {
    if table == [] then None
    else if Contains(s, table[0].key) then Some(0)
    else
      match FirstIndex(table[1..], s)
      case None => None
      case Some(i) => Some(i + 1)
  }

  /** `normalizeQuery`: the expansion of the first key found in the lowercased, trimmed query;
      the query itself, untouched, when no key occurs in it. */
  function NormalizeQuery(query: string): (r: string)
    ensures (forall j :: 0 <= j < |VietnameseExpansions| ==>
               !Contains(Trim(ToLower(query)), VietnameseExpansions[j].key)) ==> r == query
    ensures (exists j :: 0 <= j < |VietnameseExpansions| &&
               Contains(Trim(ToLower(query)), VietnameseExpansions[j].key)) ==>
      exists i :: 0 <= i < |VietnameseExpansions|
        && Contains(Trim(ToLower(query)), VietnameseExpansions[i].key)
        && (forall j :: 0 <= j < i ==> !Contains(Trim(ToLower(query)), VietnameseExpansions[j].key))
        && r == VietnameseExpansions[i].value
  {
    var lowerQuery := Trim(ToLower(query));
    match FirstIndex(VietnameseExpansions, lowerQuery)
    case None => query
    case Some(i) => VietnameseExpansions[i].value
  }

  /** A string that contains `x + b + y` contains `b`. */
  lemma ContainsPart(s: string, x: string, b: string, y: string)
    requires Contains(s, x + b + y)
    ensures Contains(s, b)
  {
    ContainsWitness(s, x + b + y);
    var i: nat :| OccursAt(s, x + b + y, i);
    var t := s[i..i + |x + b + y|];
    forall k | 0 <= k < |b| ensures s[i + |x| + k] == b[k] {
      assert s[i + |x| + k] == t[|x| + k] == (x + b + y)[|x| + k];
    }
    assert s[i + |x|..i + |x| + |b|] == b;
    ContainsAt(s, b, i + |x|);
  }

  /** The key `bao nhiêu năm` never decides: every query containing it contains the earlier
      key `năm`. */
  lemma LongerKeyShadowed(s: string)
    ensures FirstIndex(VietnameseExpansions, s) != Some(1)
  {
    var first, second := VietnameseExpansions[0].key, VietnameseExpansions[1].key;
    assert second == "bao nhiêu " + first + "";
    if Contains(s, second) {
      ContainsPart(s, "bao nhiêu ", first, "");
    }
  }

  // ---------------------------------------------------------------------
  // Expansion

  /** The words of the lowercased normalised query longer than two characters. */
  function Keywords(normalizedQuery: string): seq<string>
  {
    LongWords(ToLower(normalizedQuery))
  }

  /** `${words[i]} ${words[i + 1]}` for each adjacent pair. */
  function Bigrams(words: seq<string>): (r: seq<string>)
    ensures |r| == if |words| > 0 then |words| - 1 else 0
    ensures forall i :: 0 <= i < |r| ==> r[i] == words[i] + " " + words[i + 1]
  {
    if |words| == 0 then []
    else seq(|words| - 1, i requires 0 <= i < |words| - 1 => words[i] + " " + words[i + 1])
  }

  /** The values of the entries whose key occurs in `s`, in table order. */
  function Translated(table: seq<Entry>, s: string): (r: seq<string>)
    ensures |r| <= |table|
  {
    if table == [] then []
    else
      var init, last := table[..|table| - 1], table[|table| - 1];
      Translated(init, s) + (if Contains(s, last.key) then [last.value] else [])
  }

  /** The translations added are exactly the values of the keys that occur. */
  lemma {:induction false} TranslatedMembers(table: seq<Entry>, s: string)
    ensures forall v :: v in Translated(table, s) ==>
      exists i :: 0 <= i < |table| && Contains(s, table[i].key) && table[i].value == v
    ensures forall i :: 0 <= i < |table| && Contains(s, table[i].key) ==> table[i].value in Translated(table, s)
  {
    if table != [] {
      var init := table[..|table| - 1];
      TranslatedMembers(init, s);
      assert forall i :: 0 <= i < |init| ==> init[i] == table[i];
    }
  }

  /** `queries` as `expandQuery` builds it from the query, its normalisation, the keywords of
      the normalisation and the translations found in it. */
  function Assemble(query: string, normalizedQuery: string, words: seq<string>,
                    translations: seq<string>): seq<string>
  {
    [query, normalizedQuery]
    + (if |words| > 1 then words + (if |words| > 2 then Bigrams(words) else []) else [])
    + translations
  }

  /** The `queries` array before deduplication. */
  function RawExpansion(query: string): seq<string>
  {
    var normalizedQuery := NormalizeQuery(query);
    Assemble(query, normalizedQuery, Keywords(normalizedQuery),
             Translated(Translations, ToLower(normalizedQuery)))
  }

  /** The layout of `queries`: the query, its normalisation, the keywords when there are at
      least two, the bigrams when there are more than two, then the translations. */
  lemma AssembleLayout(query: string, normalizedQuery: string, words: seq<string>,
                       translations: seq<string>)
    ensures var middle := if |words| > 1 then |words| + (if |words| > 2 then |words| - 1 else 0) else 0;
      var raw := Assemble(query, normalizedQuery, words, translations);
      && |raw| == 2 + middle + |translations|
      && raw[0] == query && raw[1] == normalizedQuery
      && (|words| > 1 ==> raw[2..2 + |words|] == words)
      && (|words| > 2 ==> raw[2 + |words|..2 + middle] == Bigrams(words))
      && raw[2 + middle..] == translations
  {
  }

  /** The adjacent-pair loop of `expandQuery`. */
  method PushBigrams(queries: seq<string>, words: seq<string>) returns (r: seq<string>)
    ensures r == queries + Bigrams(words)
  {
    r := queries;
    var i := 0;
    while i + 1 < |words|
      invariant 0 <= i <= |Bigrams(words)|
      invariant r == queries + Bigrams(words)[..i]
    {
      r := r + [words[i] + " " + words[i + 1]];
      assert Bigrams(words)[..i + 1] == Bigrams(words)[..i] + [Bigrams(words)[i]];
      i := i + 1;
    }
    assert Bigrams(words)[..i] == Bigrams(words);
  }

  /** The keywords and bigrams `expandQuery` pushes onto `queries`. */
  method PushWordVariants(queries: seq<string>, words: seq<string>) returns (r: seq<string>)
    ensures r == queries + (if |words| > 1 then words + (if |words| > 2 then Bigrams(words) else []) else [])
  {
    r := queries;
    if |words| > 1 {
      r := r + words;
      if |words| > 2 {
        r := PushBigrams(r, words);
      }
    }
  }

  /** The translations `expandQuery` pushes onto `queries`. */
  method PushTranslations(queries: seq<string>, baseQuery: string) returns (r: seq<string>)
    ensures r == queries + Translated(Translations, baseQuery)
  {
    r := queries;
    for i := 0 to |Translations|
      invariant r == queries + Translated(Translations[..i], baseQuery)
    {
      if Contains(baseQuery, Translations[i].key) {
        r := r + [Translations[i].value];
      }
      assert Translations[..i + 1][..i] == Translations[..i];
    }
    assert Translations[..|Translations|] == Translations;
  }

  /** `expandQuery`: the query variants collected step by step, each kept once. */
  method ExpandQuery(query: string) returns (expandedQueries: seq<string>)
    ensures expandedQueries == Dedup(RawExpansion(query))
  {
    var normalizedQuery := NormalizeQuery(query);
    var queries := [query, normalizedQuery];
    var baseQuery := ToLower(normalizedQuery);
    var words := Keywords(normalizedQuery);
    queries := PushWordVariants(queries, words);
    queries := PushTranslations(queries, baseQuery);
    expandedQueries := Dedup(queries);
  }

  /** The expansion starts with the query itself and holds every variant once. */
  lemma ExpansionShape(query: string)
    ensures var e := Dedup(RawExpansion(query));
      && |e| >= 1 && e[0] == query && NoDuplicates(e)
      && forall v :: v in e <==> v in RawExpansion(query)
  {
    DedupDistinct(RawExpansion(query));
  }

  /** The variants keep the order in which they were first collected. */
  lemma ExpansionOrder(query: string)
    ensures var e := Dedup(RawExpansion(query));
      forall i, j :: 0 <= i < j < |e| ==> SeenBefore(RawExpansion(query), e[i], e[j])
  {
    DedupOrder(RawExpansion(query));
  }

  /** Keywords are added only when there are at least two of them. */
  lemma FewWordsNoVariants(query: string, normalizedQuery: string, words: seq<string>,
                           translations: seq<string>)
    requires |words| <= 1
    ensures Assemble(query, normalizedQuery, words, translations)
         == [query, normalizedQuery] + translations
  {
  }
}
