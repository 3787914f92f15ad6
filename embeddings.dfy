/** The pure helpers of lib/ai/embeddings.ts: the text an embedding is computed from, and the
    cosine similarity of two vectors. The OpenAI calls are not part of this model; the square
    root is an abstract function, and vector entries are exact reals. */
module Embeddings {
  import opened Strings
  import opened Collections
  import opened Schema

  // ---------------------------------------------------------------------
  // Text preparation

  /** `[TYPE] ` for a present type, nothing otherwise. */
  function TypePrefix(kind: Option<string>): string
  {
    if Present(kind) then "[" + ToUpper(kind.value) + "] " else ""
  }

  /** The text before trimming: prefix, title, a blank line, content. */
  function RawText(title: string, content: string, kind: Option<string>): string
  {
    TypePrefix(kind) + title + "\n\n" + content
  }

  /** `prepareTextForEmbedding`: the raw text with the whitespace at both ends removed. */
  function PrepareTextForEmbedding(title: string, content: string, kind: Option<string>): (r: string)
    ensures exists i :: PaddedBy(RawText(title, content, kind), r, i, IsSpace)
    ensures r == [] || (!IsSpace(r[0]) && !IsSpace(r[|r| - 1]))
  {
    TrimSpaceAround(RawText(title, content, kind));
    Trim(RawText(title, content, kind))
  }

  /** Trimming never removes a character before the last non-space one. */
  lemma TrimKeepsPrefix(s: string, j: nat)
    requires j < |s| && !IsSpace(s[0]) && !IsSpace(s[j])
    ensures s[..j + 1] <= Trim(s)
  {
    var t := TrimStart(s);
    assert t == s;
    var r := TrimEnd(t);
    assert |r| > j;
    assert Trim(s) == r;
  }

  /** A present type puts `[TYPE]` at the very front of the prepared text. */
  lemma TypeHeadLeads(title: string, content: string, kind: Option<string>)
    requires Present(kind)
    ensures "[" + ToUpper(kind.value) + "]" <= PrepareTextForEmbedding(title, content, kind)
  {
    var head := "[" + ToUpper(kind.value) + "]";
    var s := RawText(title, content, kind);
    assert s == head + (" " + title + "\n\n" + content);
    TrimKeepsPrefix(s, |head| - 1);
    assert s[..|head|] == head;
  }

  /** A prefix that opens with a non-space survives the trim of `prefix + body` when `body`
      has a non-space somewhere. */
  lemma PrefixSurvivesTrim(prefix: string, body: string, k: nat)
    requires prefix != [] && !IsSpace(prefix[0]) && k < |body| && !IsSpace(body[k])
    ensures prefix <= Trim(prefix + body)
  {
    var s := prefix + body;
    assert s[|prefix| + k] == body[k];
    TrimKeepsPrefix(s, |prefix| + k);
    assert s[..|prefix|] == prefix;
  }

  /** The space after `[TYPE]` survives the trim unless the title and the content are
      whitespace only (then the text is `[TYPE]` alone). */
  lemma TypePrefixLeads(title: string, content: string, kind: Option<string>, k: nat)
    requires Present(kind)
    requires k < |title + "\n\n" + content| && !IsSpace((title + "\n\n" + content)[k])
    ensures TypePrefix(kind) <= PrepareTextForEmbedding(title, content, kind)
  {
    var prefix, body := TypePrefix(kind), title + "\n\n" + content;
    assert RawText(title, content, kind) == prefix + body;
    PrefixSurvivesTrim(prefix, body, k);
  }

  /** Without a type, an already trimmed title and content are joined by a blank line as they
      are: the title comes first, the content last. */
  lemma UntypedJoin(title: string, content: string, kind: Option<string>)
    requires !Present(kind)
    requires title != [] && !IsSpace(title[0])
    requires content != [] && !IsSpace(content[|content| - 1])
    ensures PrepareTextForEmbedding(title, content, kind) == title + "\n\n" + content
  {
    var s := RawText(title, content, kind);
    assert s == title + "\n\n" + content;
    TrimKeepsPrefix(s, |s| - 1);
    assert s[..|s|] == s;
  }

  /** A word of lower-case ASCII letters upper-cases letter by letter. */
  lemma UpperOfLower(s: string, u: string)
    requires |u| == |s|
    requires forall i :: 0 <= i < |s| ==> 'a' <= s[i] <= 'z' && u[i] as int == s[i] as int - 32
    ensures ToUpper(s) == u
  {
  }

  /** The types the CMS passes are content-type names, and each upper-cases to its capitals. */
  lemma UpperTypeName(t: ContentType)
    ensures t == Prompt ==> ToUpper(ContentTypeName(t)) == "PROMPT"
    ensures t == Template ==> ToUpper(ContentTypeName(t)) == "TEMPLATE"
    ensures t == Document ==> ToUpper(ContentTypeName(t)) == "DOCUMENT"
    ensures t == Config ==> ToUpper(ContentTypeName(t)) == "CONFIG"
  {
    var s := ContentTypeName(t);
    match t
    case Prompt =>
      assert s[0] == 'p' && s[1] == 'r' && s[2] == 'o' && s[3] == 'm' && s[4] == 'p' && s[5] == 't';
      UpperOfLower(s, "PROMPT");
    case Template =>
      assert s[0] == 't' && s[1] == 'e' && s[2] == 'm' && s[3] == 'p' && s[4] == 'l' && s[5] == 'a' && s[6] == 't' && s[7] == 'e';
      UpperOfLower(s, "TEMPLATE");
    case Document =>
      assert s[0] == 'd' && s[1] == 'o' && s[2] == 'c' && s[3] == 'u' && s[4] == 'm' && s[5] == 'e' && s[6] == 'n' && s[7] == 't';
      UpperOfLower(s, "DOCUMENT");
    case Config =>
      assert s[0] == 'c' && s[1] == 'o' && s[2] == 'n' && s[3] == 'f' && s[4] == 'i' && s[5] == 'g';
      UpperOfLower(s, "CONFIG");
  }

  // ---------------------------------------------------------------------
  // Cosine similarity

  /** A floating-point similarity: a finite value, or the NaN of `0 / 0` on a zero vector. */
  datatype Similarity = NaN | Finite(value: real)

  /** `sum of a[i] * b[i]`, accumulated from index 0 upwards. */
  function Dot(a: seq<real>, b: seq<real>): real
    requires |a| == |b|
  {
    if a == [] then 0.0 else Dot(a[..|a| - 1], b[..|b| - 1]) + a[|a| - 1] * b[|b| - 1]
  }

  lemma {:induction false} DotSymmetric(a: seq<real>, b: seq<real>)
    requires |a| == |b|
    ensures Dot(a, b) == Dot(b, a)
  {
    if a != [] {
      DotSymmetric(a[..|a| - 1], b[..|b| - 1]);
    }
  }

  /** `normA` and `normB` are sums of squares, never negative. */
  lemma {:induction false} NormNonNegative(a: seq<real>)
    ensures Dot(a, a) >= 0.0
  {
    if a != [] {
      NormNonNegative(a[..|a| - 1]);
    }
  }

  /** What `cosineSimilarity` returns or throws, given a square root `sqrt`. */
  function CosineOf(a: seq<real>, b: seq<real>, sqrt: real -> real): (r: Result<Similarity>)
    ensures r.Error? <==> |a| != |b|
    ensures r.Error? ==> r.message == "Vectors must have the same length"
  {
    if |a| != |b| then Error("Vectors must have the same length")
    else
      var denominator := sqrt(Dot(a, a)) * sqrt(Dot(b, b));
      if denominator == 0.0 then Ok(NaN) else Ok(Finite(Dot(a, b) / denominator))
  }

  /** The cosine does not depend on the order of its arguments. */
  lemma CosineSymmetric(a: seq<real>, b: seq<real>, sqrt: real -> real)
    ensures CosineOf(a, b, sqrt) == CosineOf(b, a, sqrt)
  {
    if |a| == |b| {
      DotSymmetric(a, b);
      assert sqrt(Dot(a, a)) * sqrt(Dot(b, b)) == sqrt(Dot(b, b)) * sqrt(Dot(a, a));
    }
  }

  /** The loop of `cosineSimilarity`: the dot product and both squared norms, accumulated
      together over the common length. */
  method DotAndNorms(a: seq<real>, b: seq<real>) returns (dotProduct: real, normA: real, normB: real)
    requires |a| == |b|
    ensures dotProduct == Dot(a, b) && normA == Dot(a, a) && normB == Dot(b, b)
  {
    dotProduct, normA, normB := 0.0, 0.0, 0.0;
    var i := 0;
    while i < |a|
      invariant i <= |a|
      invariant dotProduct == Dot(a[..i], b[..i])
      invariant normA == Dot(a[..i], a[..i]) && normB == Dot(b[..i], b[..i])
    {
      dotProduct := dotProduct + a[i] * b[i];
      normA := normA + a[i] * a[i];
      normB := normB + b[i] * b[i];
      assert a[..i + 1][..i] == a[..i] && b[..i + 1][..i] == b[..i];
      i := i + 1;
    }
    assert a[..i] == a && b[..i] == b;
  }

  /** `cosineSimilarity`: the length check, the accumulating loop, then the quotient. */
  method CosineSimilarity(a: seq<real>, b: seq<real>, sqrt: real -> real) returns (r: Result<Similarity>)
    ensures r == CosineOf(a, b, sqrt)
  {
    if |a| != |b| {
      return Error("Vectors must have the same length");
    }
    var dotProduct, normA, normB := DotAndNorms(a, b);
    var denominator := sqrt(normA) * sqrt(normB);
    assert denominator == sqrt(Dot(a, a)) * sqrt(Dot(b, b));
    r := if denominator == 0.0 then Ok(NaN) else Ok(Finite(dotProduct / denominator));
    assert r == CosineOf(a, b, sqrt);
  }
}
