/** JavaScript string operations used by the retrieval engine, on `string == seq<char>`.
    A `char` is a Unicode scalar value; JavaScript counts UTF-16 code units (see README). */
module Strings {
  import opened Collections

  /** JavaScript's `\s` class, which is also the set `String.prototype.trim` removes. */
  predicate IsSpace(c: char) {
    c == ' ' || c == '\t' || c == '\n' || c == '\r' || c == '\U{000B}' || c == '\U{000C}'
    || c == '\U{00A0}' || c == '\U{1680}' || ('\U{2000}' <= c <= '\U{200A}')
    || c == '\U{2028}' || c == '\U{2029}' || c == '\U{202F}' || c == '\U{205F}'
    || c == '\U{3000}' || c == '\U{FEFF}'
  }

  predicate IsAsciiUpper(c: char) { 'A' <= c <= 'Z' }

  /** `toLowerCase` on one character: ASCII, the Latin-1 capitals, the even-coded capitals of
      U+0100–U+012F and U+014A–U+0177, the Vietnamese horned letters and the even-coded
      capitals of U+1EA0–U+1EF8 (where Vietnamese lives). Every other character is left
      unchanged. */
  function LowerChar(c: char): (r: char)
    ensures !IsAsciiUpper(r)
    ensures IsAsciiUpper(c) ==> r as int == c as int + 32
    ensures c as int < 128 && !IsAsciiUpper(c) ==> r == c
    ensures c as int >= 128 ==> r as int >= 128
  {
    if IsAsciiUpper(c) then (c as int + 32) as char
    else if '\U{00C0}' <= c <= '\U{00DE}' && c != '\U{00D7}' then (c as int + 32) as char
    else if (('\U{0100}' <= c <= '\U{012F}') || ('\U{014A}' <= c <= '\U{0177}')) && c as int % 2 == 0
    then (c as int + 1) as char
    else if c == '\U{01A0}' || c == '\U{01AF}' then (c as int + 1) as char
    else if '\U{1EA0}' <= c <= '\U{1EF8}' && c as int % 2 == 0 then (c as int + 1) as char
    else c
  }

  /** `toUpperCase` on one character, ASCII letters only (it is applied to content-type names). */
  function UpperChar(c: char): (r: char)
    ensures 'a' <= c <= 'z' ==> IsAsciiUpper(r) && r as int == c as int - 32
    ensures !('a' <= c <= 'z') ==> r == c
  {
    if 'a' <= c <= 'z' then (c as int - 32) as char else c
  }

  function ToLower(s: string): (r: string)
    ensures |r| == |s|
    ensures forall i :: 0 <= i < |s| ==> r[i] == LowerChar(s[i])
  {
    seq(|s|, i requires 0 <= i < |s| => LowerChar(s[i]))
  }

  function ToUpper(s: string): (r: string)
    ensures |r| == |s|
    ensures forall i :: 0 <= i < |s| ==> r[i] == UpperChar(s[i])
  {
    seq(|s|, i requires 0 <= i < |s| => UpperChar(s[i]))
  }

  function TrimStart(s: string): (r: string)
    ensures |r| <= |s| && r == s[|s| - |r|..]
    ensures forall i :: 0 <= i < |s| - |r| ==> IsSpace(s[i])
    ensures r == [] || !IsSpace(r[0])
  {
    if |s| > 0 && IsSpace(s[0]) then TrimStart(s[1..]) else s
  }

  function TrimEnd(s: string): (r: string)
    ensures |r| <= |s| && r == s[..|r|]
    ensures forall i :: |r| <= i < |s| ==> IsSpace(s[i])
    ensures r == [] || !IsSpace(r[|r| - 1])
  {
    if |s| > 0 && IsSpace(s[|s| - 1]) then TrimEnd(s[..|s| - 1]) else s
  }

  /** `r` sits at offset `i` of `s`, and every character of `s` before and after it
      satisfies `p`. */
  predicate PaddedBy(s: string, r: string, i: nat, p: char -> bool)
  {
    i + |r| <= |s| && r == s[i..i + |r|]
    && (forall k :: 0 <= k < i ==> p(s[k]))
    && (forall k :: i + |r| <= k < |s| ==> p(s[k]))
  }

  /** A prefix `r` of a suffix `t` of `s`, where what both cuts remove satisfies `p`. */
  lemma SliceBetween(s: string, t: string, r: string, p: char -> bool)
    requires |t| <= |s| && t == s[|s| - |t|..] && forall k :: 0 <= k < |s| - |t| ==> p(s[k])
    requires |r| <= |t| && r == t[..|r|] && forall k :: |r| <= k < |t| ==> p(t[k])
    ensures PaddedBy(s, r, |s| - |t|, p)
  {
    var i := |s| - |t|;
    assert r == s[i..i + |r|];
    forall k | i + |r| <= k < |s| ensures p(s[k]) {
      assert s[k] == t[k - i];
    }
  }

  /** `String.prototype.trim`: the slice of `s` left after removing whitespace at both ends. */
  function Trim(s: string): (r: string)
    ensures |r| <= |s|
    ensures r == [] || (!IsSpace(r[0]) && !IsSpace(r[|r| - 1]))
  {
    TrimEnd(TrimStart(s))
  }

  /** What `trim` removes is whitespace at both ends and nothing else. */
  lemma TrimSpaceAround(s: string)
    ensures exists i :: PaddedBy(s, Trim(s), i, IsSpace)
  {
    var t := TrimStart(s);
    SliceBetween(s, t, TrimEnd(t), IsSpace);
    assert PaddedBy(s, Trim(s), |s| - |t|, IsSpace);
  }

  predicate OccursAt(s: string, sub: string, i: nat)
  {
    i + |sub| <= |s| && s[i..i + |sub|] == sub
  }

  /** `s.includes(sub)`; the empty string is contained in every string. */
  predicate Contains(s: string, sub: string)
  {
    sub <= s || (|s| > 0 && Contains(s[1..], sub))
  }

  lemma {:induction false} ContainsAt(s: string, sub: string, i: nat)
    requires OccursAt(s, sub, i)
    ensures Contains(s, sub)
  {
    if i > 0 {
      assert s[1..][i - 1..i - 1 + |sub|] == sub;
      assert OccursAt(s[1..], sub, i - 1);
      ContainsAt(s[1..], sub, i - 1);
    }
  }

  lemma {:induction false} ContainsWitness(s: string, sub: string)
    requires Contains(s, sub)
    ensures exists i :: OccursAt(s, sub, i)
  {
    if sub <= s {
      assert OccursAt(s, sub, 0);
    } else {
      ContainsWitness(s[1..], sub);
      var i: nat :| OccursAt(s[1..], sub, i);
      assert s[i + 1..i + 1 + |sub|] == s[1..][i..i + |sub|];
      assert OccursAt(s, sub, i + 1);
    }
  }

  lemma ContainsInConcat(a: string, b: string, c: string)
    ensures Contains(a + b + c, b)
  {
    assert (a + b + c)[|a|..|a| + |b|] == b;
    assert OccursAt(a + b + c, b, |a|);
    ContainsAt(a + b + c, b, |a|);
  }

  /** A substring of the middle piece is a substring of the whole. */
  lemma ContainsWithin(x: string, b: string, y: string, sub: string)
    requires Contains(b, sub)
    ensures Contains(x + b + y, sub)
  {
    ContainsWitness(b, sub);
    var i: nat :| OccursAt(b, sub, i);
    forall k | 0 <= k < |sub| ensures (x + b + y)[|x| + i + k] == sub[k] {
      assert (x + b + y)[|x| + i + k] == b[i + k] == b[i..i + |sub|][k];
    }
    assert (x + b + y)[|x| + i..|x| + i + |sub|] == sub;
    ContainsAt(x + b + y, sub, |x| + i);
  }

  /** Containment is transitive. */
  lemma ContainsTransitive(s: string, t: string, sub: string)
    requires Contains(s, t) && Contains(t, sub)
    ensures Contains(s, sub)
  {
    ContainsWitness(s, t);
    var j: nat :| OccursAt(s, t, j);
    ContainsWitness(t, sub);
    var i: nat :| OccursAt(t, sub, i);
    forall k | 0 <= k < |sub| ensures s[j + i + k] == sub[k] {
      assert s[j + i + k] == s[j..j + |t|][i + k] == t[i + k] == t[i..i + |sub|][k];
    }
    assert s[j + i..j + i + |sub|] == sub;
    ContainsAt(s, sub, j + i);
  }

  /** `s.startsWith(p)`. */
  predicate StartsWith(s: string, p: string) { p <= s }

  /** `s.split(c)` for a class of single separator characters, keeping empty pieces.
      JavaScript's `split(/[...]+/)` splits on runs instead; the two differ only in empty
      pieces, and every caller drops those with a length filter. */
  function SplitOn(s: string, isSep: char -> bool): (r: seq<string>)
    ensures |r| >= 1
    ensures forall i, k :: 0 <= i < |r| && 0 <= k < |r[i]| ==> !isSep(r[i][k]) && r[i][k] in s
  {
    if |s| == 0 then [""]
    else
      var rest := SplitOn(s[1..], isSep);
      if isSep(s[0]) then [""] + rest
      else [[s[0]] + rest[0]] + rest[1..]
  }

  /** `w => w.length > 2`. */
  function IsLongWord(): string -> bool
  {
    w => |w| > 2
  }

  /** `s.split(/\s+/).filter(w => w.length > 2)`: the words of `s` longer than two characters. */
  function LongWords(s: string): (r: seq<string>)
    ensures forall i :: 0 <= i < |r| ==> |r[i]| > 2
    ensures forall i, k :: 0 <= i < |r| && 0 <= k < |r[i]| ==> !IsSpace(r[i][k]) && r[i][k] in s
  {
    Filter(SplitOn(s, IsSpace), IsLongWord())
  }

  /** `parts.join(sep)`. */
  function Join(parts: seq<string>, sep: string): string
  {
    if |parts| == 0 then ""
    else if |parts| == 1 then parts[0]
    else Join(parts[..|parts| - 1], sep) + sep + parts[|parts| - 1]
  }

  lemma {:induction false} JoinContainsPart(parts: seq<string>, sep: string, k: nat)
    requires k < |parts|
    ensures Contains(Join(parts, sep), parts[k])
  {
    if |parts| == 1 {
      assert OccursAt(parts[0], parts[0], 0);
      ContainsAt(parts[0], parts[0], 0);
    } else if k == |parts| - 1 {
      ContainsInConcat(Join(parts[..|parts| - 1], sep) + sep, parts[k], "");
      assert Join(parts[..|parts| - 1], sep) + sep + parts[k] + "" == Join(parts, sep);
    } else {
      var init := Join(parts[..|parts| - 1], sep);
      JoinContainsPart(parts[..|parts| - 1], sep, k);
      ContainsWitness(init, parts[k]);
      var i: nat :| OccursAt(init, parts[k], i);
      assert Join(parts, sep)[i..i + |parts[k]|] == init[i..i + |parts[k]|];
      assert OccursAt(Join(parts, sep), parts[k], i);
      ContainsAt(Join(parts, sep), parts[k], i);
    }
  }

  /** `c.repeat(n)`. */
  function Repeat(c: char, n: nat): (r: string)
    ensures |r| == n && forall i :: 0 <= i < n ==> r[i] == c
  {
    seq(n, _ => c)
  }

  function DigitChar(d: nat): char
    requires d < 10
  {
    "0123456789"[d]
  }

  /** The decimal rendering `${n}` of a non-negative integer. */
  function NatToString(n: nat): (r: string)
    ensures |r| >= 1
    ensures forall c :: c in r ==> '0' <= c <= '9'
  {
    if n < 10 then [DigitChar(n)] else NatToString(n / 10) + [DigitChar(n % 10)]
  }

  predicate IsAsciiDigit(c: char) { '0' <= c <= '9' }
}
