/**
 * Session identity: the key of the session registry is the user-supplied
 * number with every character that is not an ASCII digit removed, as
 * `number.replace(/\D/g, "")` does when a session starts and when it is
 * disconnected.
 */
module Identity {
  import opened Strings
  import opened Sequences

  /** `s.replace(/\D/g, "")`: the digits of `s`, in order. */
  function DigitsOnly(s: string): (r: string)
    ensures AllDigits(r)
    ensures |r| <= |s|
    ensures AllDigits(s) ==> r == s
  {
    if s == [] then []
    else if IsDigit(s[0]) then [s[0]] + DigitsOnly(s[1..])
    else DigitsOnly(s[1..])
  }

  /** A registry key: a string that the digit filter leaves as it is. */
  predicate IsCanonical(id: string) { DigitsOnly(id) == id }

  /** Filtering the filter's own output changes nothing. */
  lemma DigitsOnlyIdempotent(s: string)
    ensures DigitsOnly(DigitsOnly(s)) == DigitsOnly(s)
    ensures IsCanonical(DigitsOnly(s))
  {
  }

  /** The filter works character by character, so it distributes over concatenation. */
  lemma {:induction false} DigitsOnlyAppend(a: string, b: string)
    ensures DigitsOnly(a + b) == DigitsOnly(a) + DigitsOnly(b)
  {
    if a == [] {
      assert a + b == b;
    } else {
      assert (a + b)[0] == a[0];
      assert (a + b)[1..] == a[1..] + b;
      DigitsOnlyAppend(a[1..], b);
    }
  }

  /** The filter keeps every digit of `s` as often as it occurs and nothing else. */
  lemma {:induction false} DigitsOnlyCounts(s: string, c: char)
    ensures multiset(DigitsOnly(s))[c] == if IsDigit(c) then multiset(s)[c] else 0
  {
    if s != [] {
      DigitsOnlyCounts(s[1..], c);
      assert s == [s[0]] + s[1..];
      assert multiset(s) == multiset([s[0]]) + multiset(s[1..]);
      if IsDigit(s[0]) {
        assert multiset(DigitsOnly(s)) == multiset([s[0]]) + multiset(DigitsOnly(s[1..]));
      }
    }
  }

  /** The digits keep the order they had in `s`. */
  lemma {:induction false} DigitsOnlySubsequence(s: string)
    ensures IsSubsequence(DigitsOnly(s), s)
  {
    if s != [] {
      DigitsOnlySubsequence(s[1..]);
      if !IsDigit(s[0]) {
        SubsequenceOfTail(DigitsOnly(s[1..]), s);
      }
    }
  }
}
