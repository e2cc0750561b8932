/** Decimal rendering of naturals (what `{}` prints for an unsigned
    integer) and the substring relation used to state what a line mentions. */
module Text {

  predicate IsDigit(c: char) {
    '0' <= c <= '9'
  }

  predicate AllDigits(s: string) {
    forall i :: 0 <= i < |s| ==> IsDigit(s[i])
  }

  function DigitChar(d: nat): (c: char)
    requires d < 10
    ensures IsDigit(c) && c as int - '0' as int == d
  {
    ('0' as int + d) as char
  }

  /** Base-10 text of `n`, most significant digit first, no leading zeros. */
  function NatToString(n: nat): (s: string)
    ensures |s| >= 1
    ensures AllDigits(s)
    ensures s[0] == '0' ==> n == 0
    decreases n
  {
    if n < 10 then [DigitChar(n)] else NatToString(n / 10) + [DigitChar(n % 10)]
  }

  /** The natural a string of decimal digits denotes. */
  function DigitsValue(s: string): nat
    requires AllDigits(s)
    decreases |s|
  {
    if s == [] then 0
    else DigitsValue(s[..|s| - 1]) * 10 + (s[|s| - 1] as int - '0' as int)
  }

  /** Reading the rendered digits back gives the number. */
  lemma {:induction false} NatToStringRoundTrip(n: nat)
    ensures DigitsValue(NatToString(n)) == n
    decreases n
  {
    var s := NatToString(n);
    if n >= 10 {
      NatToStringRoundTrip(n / 10);
      assert s[..|s| - 1] == NatToString(n / 10);
    }
  }

  /** Distinct numbers are rendered as distinct texts. */
  lemma NatToStringInjective(m: nat, n: nat)
    ensures NatToString(m) == NatToString(n) ==> m == n
  {
    NatToStringRoundTrip(m);
    NatToStringRoundTrip(n);
  }

  /** A run of digits followed by text that starts with a non-digit is
      determined by the concatenation: the digits are its longest digit prefix. */
  lemma DigitPrefixUnique(d1: string, t1: string, d2: string, t2: string)
    requires AllDigits(d1) && AllDigits(d2)
    requires t1 != [] && !IsDigit(t1[0])
    requires t2 != [] && !IsDigit(t2[0])
    requires d1 + t1 == d2 + t2
    ensures d1 == d2 && t1 == t2
  {
    var s := d1 + t1;
    // the first non-digit of the whole sits right after the shorter run
    var k := if |d1| <= |d2| then |d1| else |d2|;
    assert s[k] == (d2 + t2)[k];
    assert d1 == s[..|d1|] == d2;
    assert t1 == s[|d1|..] == t2;
  }

  /** `t` occurs in `s` starting at index `i`. */
  predicate OccursAt(t: string, s: string, i: int) {
    0 <= i <= |s| - |t| && s[i..i + |t|] == t
  }

  /** `t` occurs in `s` as a contiguous run. */
  predicate IsSubstring(t: string, s: string) {
    exists i | 0 <= i <= |s| :: OccursAt(t, s, i)
  }

  /** Whatever surrounds `t`, it occurs in the whole. */
  lemma InfixIsSubstring(a: string, t: string, b: string)
    ensures IsSubstring(t, a + t + b)
  {
    var s := a + t + b;
    assert OccursAt(t, s, |a|);
  }

  lemma SuffixIsSubstring(a: string, t: string)
    ensures IsSubstring(t, a + t)
  {
    InfixIsSubstring(a, t, "");
    assert a + t + "" == a + t;
  }

  /** Concatenation regrouped so that the digits and the rest of a line
      sit to the right of a common prefix. */
  lemma Regroup(a: string, b: string, c: string, d: string, e: string)
    ensures a + b + c + d + e == a + (b + ((c + d) + e))
  {
  }

  /** After a common prefix, a run of digits followed by a non-digit is
      determined by the whole line. */
  lemma LeadingNumberUnique(p: string, d1: string, t1: string, d2: string, t2: string)
    requires AllDigits(d1) && AllDigits(d2)
    requires t1 != [] && !IsDigit(t1[0]) && t2 != [] && !IsDigit(t2[0])
    requires p + (d1 + t1) == p + (d2 + t2)
    ensures d1 == d2 && t1 == t2
  {
    assert d1 + t1 == (p + (d1 + t1))[|p|..] == d2 + t2;
    DigitPrefixUnique(d1, t1, d2, t2);
  }
}
