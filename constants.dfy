/** lib/constants.ts: the guest e-mail pattern `^guest-\d+$` and the memoised dummy password. */
module Constants {
  import opened Strings
  import opened Collections

  const GuestPrefix: string := "guest-"

  /** `guestRegex.test(s)`: `guest-` followed by one or more ASCII digits and nothing else
      (JavaScript's `\d` is ASCII only, and `$` without the `m` flag is the end of input). */
  predicate IsGuestEmail(s: string)
  {
    |s| > |GuestPrefix| && s[..|GuestPrefix|] == GuestPrefix
    && forall i :: |GuestPrefix| <= i < |s| ==> IsAsciiDigit(s[i])
  }

  // ---------------------------------------------------------------------
  // The same pattern read character by character: states 0..5 expect the next prefix
  // character, 6 expects the first digit, 7 has seen at least one digit, -1 has failed.

  const Accept := 7
  const Failed := -1

  function Step(state: int, c: char): int
  {
    if 0 <= state < |GuestPrefix| then (if c == GuestPrefix[state] then state + 1 else Failed)
    else if state == |GuestPrefix| || state == Accept then (if IsAsciiDigit(c) then Accept else Failed)
    else Failed
  }

  function Run(state: int, s: string): int
    decreases |s|
  {
    if s == [] then state else Run(Step(state, s[0]), s[1..])
  }

  predicate Matches(s: string) { Run(0, s) == Accept }

  predicate AllDigits(s: string) { forall i :: 0 <= i < |s| ==> IsAsciiDigit(s[i]) }

  lemma {:induction false} RunFailed(s: string)
    ensures Run(Failed, s) == Failed
  {
    if s != [] {
      RunFailed(s[1..]);
    }
  }

  /** From states 6 and 7 the run accepts exactly a string of digits, non-empty from 6. */
  lemma {:induction false} RunDigits(state: int, s: string)
    requires state == |GuestPrefix| || state == Accept
    ensures Run(state, s) == Accept <==> AllDigits(s) && (state == Accept || s != [])
    decreases |s|
  {
    if s != [] {
      if IsAsciiDigit(s[0]) {
        RunDigits(Accept, s[1..]);
        assert AllDigits(s) <==> AllDigits(s[1..]) by {
          forall i | 0 <= i < |s[1..]| ensures s[1..][i] == s[i + 1] { }
        }
      } else {
        RunFailed(s[1..]);
      }
    }
  }

  /** From a prefix state `k`, the run accepts exactly the rest of the prefix followed by a
      non-empty string of digits. */
  lemma {:induction false} RunPrefix(k: nat, s: string)
    requires k <= |GuestPrefix|
    ensures Run(k, s) == Accept <==>
      |s| > |GuestPrefix| - k && s[..|GuestPrefix| - k] == GuestPrefix[k..]
      && AllDigits(s[|GuestPrefix| - k..])
    decreases |s|
  {
    if k == |GuestPrefix| {
      RunDigits(k, s);
      assert s[..0] == GuestPrefix[k..];
      assert s[0..] == s;
    } else if s == [] {
    } else if s[0] == GuestPrefix[k] {
      RunPrefix(k + 1, s[1..]);
      var n := |GuestPrefix| - k;
      if |s| > n {
        assert s[1..][n - 1..] == s[n..];
        assert s[..n] == [s[0]] + s[1..][..n - 1];
        assert GuestPrefix[k..] == [GuestPrefix[k]] + GuestPrefix[k + 1..];
      }
    } else {
      RunFailed(s[1..]);
    }
  }

  /** The character-by-character reading and the declarative pattern agree on every string. */
  lemma GuestPatternAgrees(s: string)
    ensures Matches(s) <==> IsGuestEmail(s)
  {
    RunPrefix(0, s);
    assert GuestPrefix[0..] == GuestPrefix;
    if |s| > |GuestPrefix| {
      var digits := s[|GuestPrefix|..];
      assert forall i :: |GuestPrefix| <= i < |s| ==> digits[i - |GuestPrefix|] == s[i];
    }
  }

  /** The empty string, substituted for a missing e-mail, is not a guest. */
  lemma EmptyIsNotGuest()
    ensures !IsGuestEmail("")
  {
  }

  /** Guest accounts are named `guest-<number>`; every such name matches. */
  lemma NumberedGuestMatches(n: nat)
    ensures IsGuestEmail(GuestPrefix + NatToString(n))
  {
    var s := GuestPrefix + NatToString(n);
    assert s[..|GuestPrefix|] == GuestPrefix;
    forall i | |GuestPrefix| <= i < |s| ensures IsAsciiDigit(s[i]) {
      assert s[i] == NatToString(n)[i - |GuestPrefix|];
    }
  }

  /** A real e-mail address, which contains `@`, is never a guest. */
  lemma AddressIsNotGuest(s: string, i: nat)
    requires i < |s| && s[i] == '@'
    ensures !IsGuestEmail(s)
  {
    if i < |GuestPrefix| <= |s| {
      assert s[..|GuestPrefix|][i] == s[i];
    }
  }

  // ---------------------------------------------------------------------
  // The memoised dummy password

  /** The module-level `_dummyPassword` cache. `generations` counts the calls of the
      generator, whose random output is passed in. */
  class DummyPasswordCache {
    var cached: Option<string>
    ghost var generations: nat

    /** Module load: `null`. */
    constructor ()
      ensures cached == None && generations == 0
    {
      cached := None;
      generations := 0;
    }

    /** `getDummyPassword`: the cached value while it is truthy; otherwise `generated` becomes
        the cached value and is returned. */
    method GetDummyPassword(generated: string) returns (p: string)
      modifies this
      ensures Present(old(cached)) ==>
        p == old(cached).value && cached == old(cached) && generations == old(generations)
      ensures !Present(old(cached)) ==>
        p == generated && cached == Some(generated) && generations == old(generations) + 1
    {
      if !Present(cached) {
        cached := Some(generated);
        generations := generations + 1;
      }
      p := cached.value;
    }
  }

  /** Once a non-empty password is cached, a later call returns it and does not generate. */
  method TwoCalls(cache: DummyPasswordCache, first: string, second: string)
    returns (p1: string, p2: string)
    modifies cache
    requires cache.cached == None
    ensures first != "" ==> p1 == p2 == first && cache.generations == old(cache.generations) + 1
    ensures first == "" ==> p2 == second && cache.generations == old(cache.generations) + 2
  {
    p1 := cache.GetDummyPassword(first);
    p2 := cache.GetDummyPassword(second);
  }
}
