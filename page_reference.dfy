/**
 * The page number of a textbook reference such as "PSE1 Page 42": the
 * regular expression `/Page (\d+)/` takes the first "Page " followed by a
 * digit, and `parseInt` reads the digits that follow; no match means page 1.
 */
module PageReference {
  import opened Base
  import opened Text

  const Marker: string := "Page "

  /** The expression matches at `i`: "Page " there, then at least one digit. */
  predicate MatchesAt(s: string, i: nat)
  {
    OccursAt(s, Marker, i) && i + |Marker| < |s| && IsDigit(s[i + |Marker|])
  }

  predicate NoMatch(s: string)
  {
    forall i: nat :: i < |s| ==> !MatchesAt(s, i)
  }

  /** The leftmost match at or after `from`, as the regular expression engine finds it. */
  function FirstMatch(s: string, from: nat): (r: Option<nat>)
    ensures r.Some? ==> from <= r.value < |s| && MatchesAt(s, r.value)
    ensures r.Some? ==> forall i: nat :: from <= i < r.value ==> !MatchesAt(s, i)
    ensures r.None? ==> forall i: nat :: from <= i < |s| ==> !MatchesAt(s, i)
    decreases |s| - from
  {
    if from >= |s| then None
    else if MatchesAt(s, from) then Some(from)
    else FirstMatch(s, from + 1)
  }

  /** The digit run of the first match (`\d+` is greedy), read as a decimal number; 1 without a match. */
  function PageNumber(reference: string): nat
  {
    match FirstMatch(reference, 0)
    case Some(i) => DecimalValue(DigitPrefix(reference[i + |Marker|..]))
    case None => 1
  }

  /** Without any "Page <digit>" the page is 1. */
  lemma PageNumberDefault(reference: string)
    requires NoMatch(reference)
    ensures PageNumber(reference) == 1
  {
  }

  /** The marker's own characters are not digits. */
  lemma MarkerHasNoDigit()
    ensures forall j :: 0 <= j < |Marker| ==> !IsDigit(Marker[j])
  {
  }

  /**
   * A reference whose first "Page <digit>" is followed by the text of `n` and
   * then a non-digit (or nothing) yields `n`: later matches do not count.
   */
  lemma {:induction false} PageNumberOf(before: string, n: nat, after: string)
    requires NoMatch(before)
    requires after == [] || !IsDigit(after[0])
    ensures PageNumber(before + Marker + NatToString(n) + after) == n
  {
    var digits := NatToString(n);
    var s := before + Marker + digits + after;
    var k := |before|;
    assert s[k..k + |Marker|] == Marker;
    assert s[k + |Marker|] == digits[0];
    assert MatchesAt(s, k);
    forall i: nat | i < k
      ensures !MatchesAt(s, i)
    {
      MarkerHasNoDigit();
      if i + |Marker| < k {
        assert OccursAt(s, Marker, i) ==> s[i..i + |Marker|] == before[i..i + |Marker|];
        assert s[i + |Marker|] == before[i + |Marker|];
        assert !MatchesAt(before, i);
      } else {
        assert s[i + |Marker|] == Marker[i + |Marker| - k];
      }
    }
    FirstMatchIsLeftmost(s, 0, k);
    assert s[k + |Marker|..] == digits + after;
    DigitPrefixOfDigits(digits, after);
    DecimalValueOfNatToString(n);
  }

  lemma {:induction false} FirstMatchIsLeftmost(s: string, from: nat, k: nat)
    requires from <= k < |s| && MatchesAt(s, k)
    requires forall i: nat :: from <= i < k ==> !MatchesAt(s, i)
    ensures FirstMatch(s, from) == Some(k)
    decreases k - from
  {
    if from < k {
      FirstMatchIsLeftmost(s, from + 1, k);
    }
  }
}
