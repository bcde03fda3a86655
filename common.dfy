/** Text and option helpers shared by the browser-side and the server-side models:
    substring search, the case folding both runtimes apply, whitespace trimming,
    and the decimal rendering and parsing of integers. */
module Common {

  datatype Option<T> = None | Some(value: T)

  // ---------------------------------------------------------------------------
  // Substrings (JavaScript `String.prototype.includes`, Python's `in` on str)
  // ---------------------------------------------------------------------------

  predicate IsPrefix(p: string, s: string) {
    |p| <= |s| && s[..|p|] == p
  }

  /** `sub` occurs somewhere in `s` (a scan from the left, as both runtimes do). */
  predicate Contains(s: string, sub: string)
    decreases |s|
  {
    IsPrefix(sub, s) || (|s| > 0 && Contains(s[1..], sub))
  }

  /** `sub` occurs in `s` at offset `i`. */
  ghost predicate OccursAt(s: string, sub: string, i: int) {
    0 <= i && i + |sub| <= |s| && s[i..i + |sub|] == sub
  }

  /** The scan agrees with the positional definition of an occurrence. */
  lemma {:induction false} ContainsIff(s: string, sub: string)
    ensures Contains(s, sub) <==> exists i :: OccursAt(s, sub, i)
    decreases |s|
  {
    if IsPrefix(sub, s) {
      assert OccursAt(s, sub, 0);
    } else if |s| == 0 {
      assert forall i :: !OccursAt(s, sub, i);
    } else {
      ContainsIff(s[1..], sub);
      if Contains(s[1..], sub) {
        var i :| OccursAt(s[1..], sub, i);
        assert s[1..][i..i + |sub|] == s[i + 1..i + 1 + |sub|];
        assert OccursAt(s, sub, i + 1);
      } else {
        forall i | 0 <= i ensures !OccursAt(s, sub, i) {
          if i == 0 {
            assert OccursAt(s, sub, 0) ==> IsPrefix(sub, s);
          } else if i + |sub| <= |s| {
            assert s[1..][i - 1..i - 1 + |sub|] == s[i..i + |sub|];
            assert !OccursAt(s[1..], sub, i - 1);
          }
        }
      }
    }
  }

  /** Text that lacks the first character of `sub` does not contain `sub`. */
  lemma LacksFirstChar(s: string, sub: string)
    requires |sub| > 0 && forall i :: 0 <= i < |s| ==> s[i] != sub[0]
    ensures !Contains(s, sub)
  {
    ContainsIff(s, sub);
    forall i | 0 <= i ensures !OccursAt(s, sub, i) {
      if i + |sub| <= |s| {
        assert s[i..i + |sub|][0] == s[i];
      }
    }
  }

  /** The empty string occurs in every string. */
  lemma ContainsEmpty(s: string)
    ensures Contains(s, "")
  {
    assert IsPrefix("", s);
  }

  // ---------------------------------------------------------------------------
  // Case folding (JavaScript `toLowerCase`, Python `str.lower`), restricted to
  // the Latin and Cyrillic capitals the catalog uses
  // ---------------------------------------------------------------------------

  function LowerChar(c: char): (r: char)
    ensures 'A' <= c <= 'Z' ==> r as int == c as int + 32
    ensures '\U{0410}' <= c <= '\U{042F}' ==> r as int == c as int + 0x20
    ensures '\U{0400}' <= c <= '\U{040F}' ==> r as int == c as int + 0x50
    ensures !('A' <= c <= 'Z' || '\U{0400}' <= c <= '\U{042F}') ==> r == c
  {
    if 'A' <= c <= 'Z' then (c as int + 32) as char
    else if '\U{0410}' <= c <= '\U{042F}' then (c as int + 0x20) as char
    else if '\U{0400}' <= c <= '\U{040F}' then (c as int + 0x50) as char
    else c
  }

  function Lower(s: string): (r: string)
    ensures |r| == |s|
    ensures forall i :: 0 <= i < |s| ==> r[i] == LowerChar(s[i])
  {
    seq(|s|, i requires 0 <= i < |s| => LowerChar(s[i]))
  }

  /** Lower-casing keeps every occurrence: text found verbatim is found whatever
      the case of either side. */
  lemma LowerKeepsOccurrence(s: string, sub: string)
    requires Contains(s, sub)
    ensures Contains(Lower(s), Lower(sub))
  {
    ContainsIff(s, sub);
    ContainsIff(Lower(s), Lower(sub));
    var i :| OccursAt(s, sub, i);
    forall k | 0 <= k < |sub| ensures Lower(s)[i..i + |sub|][k] == Lower(sub)[k] {
      assert s[i..i + |sub|][k] == sub[k];
    }
    assert OccursAt(Lower(s), Lower(sub), i);
  }

  /** Folding twice is folding once. */
  lemma LowerIdempotent(s: string)
    ensures Lower(Lower(s)) == Lower(s)
  {
    forall i | 0 <= i < |s| ensures LowerChar(LowerChar(s[i])) == LowerChar(s[i]) {
      var c := s[i];
      if 'A' <= c <= 'Z' {
      } else if '\U{0400}' <= c <= '\U{042F}' {
      }
    }
  }

  // ---------------------------------------------------------------------------
  // Whitespace trimming (JavaScript `trim`, Python `str.strip`) over ASCII
  // whitespace
  // ---------------------------------------------------------------------------

  predicate IsSpace(c: char) {
    c == ' ' || c == '\t' || c == '\n' || c == '\r' || c == '\U{000B}' || c == '\U{000C}'
  }

  predicate AllSpace(s: string) {
    forall i :: 0 <= i < |s| ==> IsSpace(s[i])
  }

  function TrimStart(s: string): (r: string)
    ensures |r| <= |s| && r == s[|s| - |r|..]
    ensures r == [] || !IsSpace(r[0])
    ensures AllSpace(s[..|s| - |r|])
  {
    if |s| > 0 && IsSpace(s[0]) then
      var r := TrimStart(s[1..]);
      assert s[1..][..|s[1..]| - |r|] == s[1..|s| - |r|];
      r
    else s
  }

  function TrimEnd(s: string): (r: string)
    ensures |r| <= |s| && r == s[..|r|]
    ensures r == [] || !IsSpace(r[|r| - 1])
    ensures AllSpace(s[|r|..])
  {
    if |s| > 0 && IsSpace(s[|s| - 1]) then
      var r := TrimEnd(s[..|s| - 1]);
      assert s[..|s| - 1][..|r|] == s[..|r|];
      r
    else s
  }

  function Strip(s: string): string {
    TrimEnd(TrimStart(s))
  }

  /** Text with no white space at either end is its own strip. */
  lemma StripKeeps(s: string)
    requires |s| > 0 && !IsSpace(s[0]) && !IsSpace(s[|s| - 1])
    ensures Strip(s) == s
  {
    assert TrimStart(s) == s;
  }

  /** A stripped string is empty exactly when the input was all whitespace. */
  lemma StripEmptyIff(s: string)
    ensures Strip(s) == "" <==> AllSpace(s)
  {
    var t := TrimStart(s);
    if Strip(s) == "" {
      assert AllSpace(t[0..]);
      assert s == s[..|s| - |t|] + t;
    } else {
      var r := Strip(s);
      var k := |s| - |t|;
      assert t[0] == s[k];
      assert r[0] == t[0];
      assert !IsSpace(s[k]);
    }
  }

  // ---------------------------------------------------------------------------
  // Decimal integers
  // ---------------------------------------------------------------------------

  predicate IsDigit(c: char) {
    '0' <= c <= '9'
  }

  predicate AllDigits(s: string) {
    forall i :: 0 <= i < |s| ==> IsDigit(s[i])
  }

  function DigitChar(d: nat): (c: char)
    requires d < 10
    ensures IsDigit(c) && c as int - '0' as int == d
  {
    ('0' as int + d) as char
  }

  /** Decimal rendering of a natural number, without leading zeros. */
  function NatToString(n: nat): (s: string)
    ensures |s| > 0 && AllDigits(s)
    decreases n
  {
    if n < 10 then [DigitChar(n)] else NatToString(n / 10) + [DigitChar(n % 10)]
  }

  /** Decimal rendering of an integer: Python `str(int)`, JavaScript `${n}`. */
  function IntToString(i: int): (s: string)
    ensures |s| > 0
    ensures i >= 0 ==> AllDigits(s)
    ensures i < 0 ==> s[0] == '-' && AllDigits(s[1..])
  {
    if i < 0 then "-" + NatToString(-i) else NatToString(i)
  }

  /** The value of a string of decimal digits, read from the left. */
  function DigitsValue(ds: string): nat
    requires AllDigits(ds)
  {
    if ds == [] then 0
    else DigitsValue(ds[..|ds| - 1]) * 10 + (ds[|ds| - 1] as int - '0' as int)
  }

  /** Reading back a rendered natural number gives the number. */
  lemma {:induction false} NatToStringRoundTrip(n: nat)
    ensures DigitsValue(NatToString(n)) == n
    decreases n
  {
    var s := NatToString(n);
    if n >= 10 {
      NatToStringRoundTrip(n / 10);
      assert s[..|s| - 1] == NatToString(n / 10);
    }
  }
}
