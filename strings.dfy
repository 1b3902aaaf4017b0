/**
 * The JavaScript string operations the gateway relies on, over `seq<char>`:
 * `trim`, `split(/ +/)`, ASCII lower-casing, `startsWith`, `includes`,
 * `split('@')[0]`, and the decimal rendering of a non-negative integer.
 */
module Strings {

  predicate IsDigit(c: char) { '0' <= c <= '9' }

  predicate AllDigits(s: string) { forall i :: 0 <= i < |s| ==> IsDigit(s[i]) }

  /**
   * The code points `String.prototype.trim` removes: the ECMAScript
   * WhiteSpace and LineTerminator productions.
   */
  predicate IsJsWhitespace(c: char) {
    c == '\t' || c == '\n' || c == '\U{000B}' || c == '\U{000C}' || c == '\r' ||
    c == ' ' || c == '\U{00A0}' || c == '\U{1680}' || ('\U{2000}' <= c <= '\U{200A}') ||
    c == '\U{2028}' || c == '\U{2029}' || c == '\U{202F}' || c == '\U{205F}' ||
    c == '\U{3000}' || c == '\U{FEFF}'
  }

  predicate AllWhitespace(s: string) { forall i :: 0 <= i < |s| ==> IsJsWhitespace(s[i]) }

  /** `s.startsWith(p)`. */
  predicate StartsWith(s: string, p: string) { |p| <= |s| && s[..|p|] == p }

  /** `s.includes(sub)`. */
  predicate Contains(s: string, sub: string)
    decreases |s|
  {
    StartsWith(s, sub) || (s != [] && Contains(s[1..], sub))
  }

  /** `s` starts with `p` exactly when it is `p` followed by the rest of `s`. */
  lemma StartsWithConcat(s: string, p: string)
    ensures StartsWith(s, p) <==> |p| <= |s| && s == p + s[|p|..]
  {
    if |p| <= |s| && s == p + s[|p|..] {
      assert s[..|p|] == (p + s[|p|..])[..|p|];
    }
  }

  /** `sub` occurs in `s` starting at position `i`. */
  predicate OccursAt(s: string, sub: string, i: nat) {
    i + |sub| <= |s| && s[i..i + |sub|] == sub
  }

  /** `s` includes `sub` exactly when `sub` occurs in `s` at some position. */
  lemma {:induction false} ContainsAt(s: string, sub: string)
    ensures Contains(s, sub) <==> exists i: nat :: OccursAt(s, sub, i)
    decreases |s|
  {
    if StartsWith(s, sub) {
      assert OccursAt(s, sub, 0);
    } else if s != [] {
      ContainsAt(s[1..], sub);
      if i: nat :| OccursAt(s, sub, i) {
        if i > 0 {
          assert s[1..][i - 1..i - 1 + |sub|] == s[i..i + |sub|];
          assert OccursAt(s[1..], sub, i - 1);
        }
      }
      if i: nat :| OccursAt(s[1..], sub, i) {
        assert s[1..][i..i + |sub|] == s[i + 1..i + 1 + |sub|];
        assert OccursAt(s, sub, i + 1);
      }
    }
  }

  // ---------------------------------------------------------------------
  // trim
  // ---------------------------------------------------------------------

  /** Number of whitespace characters at the start of `s`. */
  function LeadingWhitespace(s: string): (n: nat)
    ensures n <= |s|
    ensures AllWhitespace(s[..n])
    ensures n < |s| ==> !IsJsWhitespace(s[n])
  {
    if s == [] || !IsJsWhitespace(s[0]) then 0 else 1 + LeadingWhitespace(s[1..])
  }

  /** Number of whitespace characters at the end of `s`. */
  function TrailingWhitespace(s: string): (n: nat)
    ensures n <= |s|
    ensures AllWhitespace(s[|s| - n..])
    ensures n < |s| ==> !IsJsWhitespace(s[|s| - 1 - n])
  {
    if s == [] || !IsJsWhitespace(s[|s| - 1]) then 0
    else
      var n := 1 + TrailingWhitespace(s[..|s| - 1]);
      assert s[|s| - n..] == s[..|s| - 1][|s| - n..] + [s[|s| - 1]];
      n
  }

  /**
   * `s.trim()`: the result is a slice `s[i..i+|r|]` with only whitespace
   * around it, and neither its first nor its last character is whitespace,
   * which together fix the slice uniquely.
   */
  function Trim(s: string): (r: string)
    ensures var i := LeadingWhitespace(s);
      i + |r| <= |s| && r == s[i..i + |r|] &&
      AllWhitespace(s[..i]) && AllWhitespace(s[i + |r|..])
    ensures r == [] || (!IsJsWhitespace(r[0]) && !IsJsWhitespace(r[|r| - 1]))
  {
    var i := LeadingWhitespace(s);
    var t := s[i..];
    var j := TrailingWhitespace(t);
    assert t[|t| - j..] == s[i + (|t| - j)..];
    t[..|t| - j]
  }

  // ---------------------------------------------------------------------
  // split(/ +/)
  // ---------------------------------------------------------------------

  /** Index of the first space of `s`, or `|s|` when it has none. */
  function IndexOfSpace(s: string): (i: nat)
    ensures i <= |s|
    ensures ' ' !in s[..i]
    ensures i < |s| ==> s[i] == ' '
  {
    if s == [] || s[0] == ' ' then 0
    else
      var i := 1 + IndexOfSpace(s[1..]);
      assert s[..i] == [s[0]] + s[1..][..i - 1];
      i
  }

  /** `s` without its leading run of spaces. */
  function DropSpaces(s: string): (r: string)
    ensures |r| <= |s| && r == s[|s| - |r|..]
    ensures forall k :: 0 <= k < |s| - |r| ==> s[k] == ' '
    ensures r == [] || r[0] != ' '
  {
    if s == [] || s[0] != ' ' then s else DropSpaces(s[1..])
  }

  /** `s` with every space removed: what splitting on spaces keeps. */
  function RemoveSpaces(s: string): string {
    if s == [] then [] else (if s[0] == ' ' then [] else [s[0]]) + RemoveSpaces(s[1..])
  }

  /** Concatenation of a sequence of strings. */
  function Concat(ts: seq<string>): string {
    if ts == [] then [] else ts[0] + Concat(ts[1..])
  }

  /**
   * `s.split(/ +/)`: cuts `s` at every maximal run of spaces. There is
   * always a first token, it is the text before the first space, no token
   * holds a space, and together the tokens hold every other character of
   * `s` in order.
   */
  function SplitOnSpaces(s: string): (r: seq<string>)
    ensures |r| >= 1
    ensures r[0] == s[..IndexOfSpace(s)]
    ensures forall t :: t in r ==> ' ' !in t
    ensures Concat(r) == RemoveSpaces(s)
    decreases |s|
  {
    var i := IndexOfSpace(s);
    if i == |s| then
      SplitLast(s);
      [s]
    else
      var tail := SplitOnSpaces(DropSpaces(s[i + 1..]));
      RemoveSpacesKeepsPrefix(s, i);
      RemoveSpacesSkipsRun(s, i);
      ConcatCons(s[..i], tail);
      [s[..i]] + tail
  }

  lemma SplitLast(s: string)
    requires IndexOfSpace(s) == |s|
    ensures s[..IndexOfSpace(s)] == s && ' ' !in s
    ensures Concat([s]) == RemoveSpaces(s)
  {
    assert s[..|s|] == s;
    RemoveSpacesNone(s);
    assert Concat([s]) == s + Concat([]);
  }

  /** The run of spaces after the first space contributes nothing. */
  lemma RemoveSpacesSkipsRun(s: string, i: nat)
    requires i == IndexOfSpace(s) < |s|
    ensures RemoveSpaces(s[i..]) == RemoveSpaces(DropSpaces(s[i + 1..]))
  {
    assert s[i..][1..] == s[i + 1..];
    RemoveSpacesDropSpaces(s[i + 1..]);
  }

  lemma ConcatCons(t: string, tail: seq<string>)
    ensures Concat([t] + tail) == t + Concat(tail)
  {
    assert ([t] + tail)[1..] == tail;
  }

  /** A space-free prefix survives the removal of spaces unchanged. */
  lemma {:induction false} RemoveSpacesKeepsPrefix(s: string, i: nat)
    requires i <= |s| && ' ' !in s[..i]
    ensures RemoveSpaces(s) == s[..i] + RemoveSpaces(s[i..])
    decreases i
  {
    if i > 0 {
      var t := s[1..];
      assert s[..i][0] == s[0];
      assert t[..i - 1] == s[1..i];
      assert s[..i] == [s[0]] + t[..i - 1];
      RemoveSpacesKeepsPrefix(t, i - 1);
      assert t[i - 1..] == s[i..];
    }
  }

  lemma {:induction false} RemoveSpacesNone(s: string)
    requires ' ' !in s
    ensures RemoveSpaces(s) == s
  {
    if s != [] {
      assert ' ' !in s[1..];
      RemoveSpacesNone(s[1..]);
    }
  }

  /** A leading run of spaces contributes nothing once spaces are removed. */
  lemma {:induction false} RemoveSpacesDropSpaces(t: string)
    ensures RemoveSpaces(DropSpaces(t)) == RemoveSpaces(t)
    decreases |t|
  {
    if t != [] && t[0] == ' ' {
      RemoveSpacesDropSpaces(t[1..]);
    }
  }

  // ---------------------------------------------------------------------
  // toLowerCase, restricted to ASCII
  // ---------------------------------------------------------------------

  predicate IsAsciiUpper(c: char) { 'A' <= c <= 'Z' }

  function LowerChar(c: char): char {
    if IsAsciiUpper(c) then (c as int + 32) as char else c
  }

  /**
   * `s.toLowerCase()` on the ASCII letters: same length, no upper-case ASCII
   * letter left, every other character kept where it was.
   */
  function ToLowerAscii(s: string): (r: string)
    ensures |r| == |s|
    ensures forall i :: 0 <= i < |r| ==> !IsAsciiUpper(r[i])
    ensures forall i :: 0 <= i < |r| && !IsAsciiUpper(s[i]) ==> r[i] == s[i]
    ensures forall i :: 0 <= i < |r| && IsAsciiUpper(s[i]) ==> r[i] as int == s[i] as int + 32
  {
    seq(|s|, i requires 0 <= i < |s| => LowerChar(s[i]))
  }

  /** Lower-casing twice is lower-casing once. */
  lemma ToLowerAsciiIdempotent(s: string)
    ensures ToLowerAscii(ToLowerAscii(s)) == ToLowerAscii(s)
  {
  }

  // ---------------------------------------------------------------------
  // Decimal rendering of a non-negative integer (template literals)
  // ---------------------------------------------------------------------

  function DigitChar(d: nat): (c: char)
    requires d < 10
    ensures IsDigit(c)
  {
    ('0' as int + d) as char
  }

  /** Value of a string of decimal digits. */
  function DecimalValue(s: string): nat
    requires AllDigits(s)
  {
    if s == [] then 0 else 10 * DecimalValue(s[..|s| - 1]) + (s[|s| - 1] as int - '0' as int)
  }

  /**
   * `String(n)` for a non-negative integer: at least one digit, no leading
   * zero, and the digits read back as `n`.
   */
  function NatToString(n: nat): (r: string)
    ensures |r| >= 1 && AllDigits(r)
    ensures |r| == 1 || r[0] != '0'
    ensures DecimalValue(r) == n
  {
    if n < 10 then [DigitChar(n)]
    else
      var r := NatToString(n / 10) + [DigitChar(n % 10)];
      assert r[..|r| - 1] == NatToString(n / 10);
      r
  }

  // ---------------------------------------------------------------------
  // split('@')[0]
  // ---------------------------------------------------------------------

  /** Index of the first `c` in `s`, or `|s|` when it has none. */
  function IndexOf(s: string, c: char): (i: nat)
    ensures i <= |s|
    ensures c !in s[..i]
    ensures i < |s| ==> s[i] == c
  {
    if s == [] || s[0] == c then 0
    else
      var i := 1 + IndexOf(s[1..], c);
      assert s[..i] == [s[0]] + s[1..][..i - 1];
      i
  }

  /** `s.split(c)[0]`: the text before the first `c`. */
  function BeforeFirst(s: string, c: char): (r: string)
    ensures StartsWith(s, r)
    ensures c !in r
    ensures |r| < |s| ==> s[|r|] == c
    ensures c in s ==> |r| < |s|
  {
    s[..IndexOf(s, c)]
  }
}
