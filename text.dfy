/**
 * The java.lang.String operations the core relies on, restricted to ASCII
 * case mapping: toLowerCase, toUpperCase, equalsIgnoreCase, contains, and
 * the "%.2f" rendering of a percentage.
 */
module Text {

  function LowerChar(c: char): char
  {
    if 'A' <= c <= 'Z' then (c as int + 32) as char else c
  }

  function UpperChar(c: char): char
  {
    if 'a' <= c <= 'z' then (c as int - 32) as char else c
  }

  /** String.toLowerCase: every letter mapped to lower case, nothing else touched. */
  function ToLower(s: string): (r: string)
    ensures |r| == |s|
    ensures forall i :: 0 <= i < |s| ==> r[i] == LowerChar(s[i])
    ensures forall i :: 0 <= i < |r| ==> !('A' <= r[i] <= 'Z')
  {
    seq(|s|, i requires 0 <= i < |s| => LowerChar(s[i]))
  }

  /** String.toUpperCase. */
  function ToUpper(s: string): (r: string)
    ensures |r| == |s|
    ensures forall i :: 0 <= i < |s| ==> r[i] == UpperChar(s[i])
    ensures forall i :: 0 <= i < |r| ==> !('a' <= r[i] <= 'z')
  {
    seq(|s|, i requires 0 <= i < |s| => UpperChar(s[i]))
  }

  /** String.equalsIgnoreCase. */
  predicate EqualsIgnoreCase(a: string, b: string)
  {
    ToLower(a) == ToLower(b)
  }

  predicate StartsWith(s: string, prefix: string)
  {
    |prefix| <= |s| && s[..|prefix|] == prefix
  }

  /** String.contains, scanning from the left. */
  predicate Contains(s: string, sub: string)
    decreases |s|
  {
    StartsWith(s, sub) || (|s| > 0 && Contains(s[1..], sub))
  }

  /** `sub` occurs in `s` at position `i`. */
  ghost predicate OccursAt(s: string, sub: string, i: int)
  {
    0 <= i && i + |sub| <= |s| && s[i..i + |sub|] == sub
  }

  /** The scan agrees with the positional definition of containment. */
  lemma {:induction false} ContainsIffOccurs(s: string, sub: string)
    ensures Contains(s, sub) <==> exists i :: OccursAt(s, sub, i)
    decreases |s|
  {
    if StartsWith(s, sub) {
      assert OccursAt(s, sub, 0);
    } else if |s| > 0 {
      ContainsIffOccurs(s[1..], sub);
      if Contains(s[1..], sub) {
        var i :| OccursAt(s[1..], sub, i);
        assert s[1..][i..i + |sub|] == s[i + 1..i + 1 + |sub|];
        assert OccursAt(s, sub, i + 1);
      } else {
        forall i | 0 < i && OccursAt(s, sub, i) ensures OccursAt(s[1..], sub, i - 1) {
          assert s[1..][i - 1..i - 1 + |sub|] == s[i..i + |sub|];
        }
      }
    }
  }

  function DigitChar(d: int): (c: char)
    requires 0 <= d < 10
    ensures '0' <= c <= '9' && c as int - '0' as int == d
  {
    ('0' as int + d) as char
  }

  /** Decimal rendering of a natural number, most significant digit first. */
  function NatToString(n: nat): (r: string)
    ensures 1 <= |r|
    ensures forall i :: 0 <= i < |r| ==> '0' <= r[i] <= '9'
    ensures n < 10 <==> |r| == 1
    decreases n
  {
    if n < 10 then [DigitChar(n)] else NatToString(n / 10) + [DigitChar(n % 10)]
  }

  /** The number a string of decimal digits denotes, most significant digit first. */
  ghost function DigitsValue(s: string): int
  {
    if |s| == 0 then 0 else DigitsValue(s[..|s| - 1]) * 10 + (s[|s| - 1] as int - '0' as int)
  }

  /** The decimal rendering denotes the number it renders. */
  lemma {:induction false} NatToStringValue(n: nat)
    ensures DigitsValue(NatToString(n)) == n
    decreases n
  {
    if n >= 10 {
      var r := NatToString(n);
      NatToStringValue(n / 10);
      assert r[..|r| - 1] == NatToString(n / 10);
    }
  }

  /** x * 100 rounded half up to a whole number of hundredths, for the magnitude of x. */
  ghost function RoundedCents(x: real): int
  {
    ((if x < 0.0 then -x else x) * 100.0 + 0.5).Floor
  }

  /**
   * String.format("%.2f", x): the magnitude rounded half-up to hundredths,
   * a minus sign for negative values, and exactly two decimals.
   */
  function FormatFixed2(x: real): (r: string)
    ensures 4 <= |r| && r[|r| - 3] == '.'
    ensures '0' <= r[|r| - 2] <= '9' && '0' <= r[|r| - 1] <= '9'
    ensures (r[0] == '-') <==> x < 0.0
  {
    var magnitude := if x < 0.0 then -x else x;
    var cents := (magnitude * 100.0 + 0.5).Floor;
    assert cents >= 0;
    CentsText(if x < 0.0 then "-" else "", cents)
  }

  /** Two digits denote ten times the first plus the second. */
  lemma TwoDigitsValue(a: int, b: int)
    requires 0 <= a < 10 && 0 <= b < 10
    ensures DigitsValue([DigitChar(a), DigitChar(b)]) == 10 * a + b
  {
    var t, u := [DigitChar(a), DigitChar(b)], [DigitChar(a)];
    assert u[..0] == [];
    assert DigitsValue(u) == a;
    assert t[..|t| - 1] == u;
    assert DigitsValue(t) == DigitsValue(u) * 10 + b;
  }

  /** The layout FormatFixed2 renders for a count of hundredths: digits, point, two digits. */
  function CentsText(sign: string, cents: nat): string
  {
    sign + NatToString(cents / 100) + "." + [DigitChar((cents % 100) / 10), DigitChar(cents % 10)]
  }

  /** The second and the last of four joined strings, cut back out. */
  lemma JoinedParts(a: string, b: string, c: string, d: string)
    ensures (a + b + c + d)[|a|..|a| + |b|] == b
    ensures (a + b + c + d)[|a| + |b| + |c|..] == d
  {
  }

  /** Where the whole part and the two decimals sit in that layout. */
  lemma CentsTextParts(sign: string, cents: nat)
    ensures var r, w := CentsText(sign, cents), NatToString(cents / 100);
      && |r| == |sign| + |w| + 3
      && r[|sign|..|r| - 3] == w
      && r[|r| - 2..] == [DigitChar((cents % 100) / 10), DigitChar(cents % 10)]
  {
    var w := NatToString(cents / 100);
    JoinedParts(sign, w, ".", [DigitChar((cents % 100) / 10), DigitChar(cents % 10)]);
  }

  /** The digits of that layout denote the count of hundredths. */
  lemma CentsTextValue(sign: string, cents: nat)
    ensures var r := CentsText(sign, cents);
      && |sign| + 4 <= |r|
      && DigitsValue(r[|sign|..|r| - 3]) * 100 + DigitsValue(r[|r| - 2..]) == cents
  {
    var r := CentsText(sign, cents);
    var hi, lo := cents / 100, cents % 100;
    CentsTextParts(sign, cents);
    NatToStringValue(hi);
    TwoDigitsValue(lo / 10, lo % 10);
    var whole, frac := DigitsValue(r[|sign|..|r| - 3]), DigitsValue(r[|r| - 2..]);
    assert whole == hi;
    assert frac == 10 * (lo / 10) + lo % 10;
    HundredthsSplit(cents);
  }

  /** A count of hundredths is its whole part, its tenths digit and its hundredths digit. */
  lemma HundredthsSplit(cents: nat)
    ensures (cents / 100) * 100 + (10 * ((cents % 100) / 10) + (cents % 100) % 10) == cents
  {
  }

  /**
   * The digits of the "%.2f" rendering denote the magnitude of x rounded
   * half up to hundredths: the integer part before the point, the
   * hundredths after it, after a minus sign exactly for a negative x.
   */
  lemma FormatFixed2Value(x: real)
    ensures var r, s := FormatFixed2(x), if x < 0.0 then 1 else 0;
      && s + 4 <= |r|
      && DigitsValue(r[s..|r| - 3]) * 100 + DigitsValue(r[|r| - 2..]) == RoundedCents(x)
  {
    var sign := if x < 0.0 then "-" else "";
    assert FormatFixed2(x) == CentsText(sign, RoundedCents(x));
    CentsTextValue(sign, RoundedCents(x));
  }
}
