/**
 Positional numerals in bases up to 36, as the standard number formatter and parser write and read
 them, and the cluster names that are decoded with them.
 */
module Numerals {

  const U64_MAX: nat := 0xFFFF_FFFF_FFFF_FFFF

  datatype Option<+T> = None | Some(value: T)

  /** Value of a digit character, or 36 for anything that is not one. Letters count in either case. */
  function DigitValue(c: char): (d: nat)
    ensures d <= 36
  {
    if '0' <= c <= '9' then c as int - '0' as int
    else if 'a' <= c <= 'z' then c as int - 'a' as int + 10
    else if 'A' <= c <= 'Z' then c as int - 'A' as int + 10
    else 36
  }

  function DigitChar(d: nat): (c: char)
    requires d < 36
    ensures DigitValue(c) == d && !('A' <= c <= 'Z')
  {
    if d < 10 then '0' + d as char else 'a' + (d - 10) as char
  }

  predicate AllDigits(s: string, base: nat) {
    forall i :: 0 <= i < |s| ==> DigitValue(s[i]) < base
  }

  function Value(s: string, base: nat): nat
    requires AllDigits(s, base)
  {
    if s == "" then 0 else Value(s[..|s| - 1], base) * base + DigitValue(s[|s| - 1])
  }

  function Digits(n: nat, base: nat): string
    requires (base == 10 || base == 36)
  {
    if n < base then [DigitChar(n)] else Digits(n / base, base) + [DigitChar(n % base)]
  }

  lemma Recompose(n: nat, base: nat)
    requires base > 0
    ensures n / base * base + n % base == n
  {
  }

  lemma {:induction false} ValueOfDigits(n: nat, base: nat)
    requires (base == 10 || base == 36)
    ensures Digits(n, base) != "" && AllDigits(Digits(n, base), base)
    ensures Value(Digits(n, base), base) == n
  {
    if n < base {
      assert [DigitChar(n)][..0] == "";
    } else {
      ValueOfDigits(n / base, base);
      var s := Digits(n, base);
      assert s[..|s| - 1] == Digits(n / base, base);
      Recompose(n, base);
    }
  }

  /** Leading zeros dropped, but never the last digit. */
  function Strip(s: string): string {
    if |s| > 1 && s[0] == '0' then Strip(s[1..]) else s
  }

  predicate Canonical(s: string) {
    && s != ""
    && (|s| > 1 ==> s[0] != '0')
    && forall i :: 0 <= i < |s| ==> !('A' <= s[i] <= 'Z')
  }

  lemma {:induction false} StripProperties(s: string, base: nat)
    requires s != "" && AllDigits(s, base) && forall i :: 0 <= i < |s| ==> !('A' <= s[i] <= 'Z')
    ensures AllDigits(Strip(s), base) && Canonical(Strip(s))
    ensures Value(Strip(s), base) == Value(s, base)
  {
    if |s| > 1 && s[0] == '0' {
      ValueSkipsZero(s, base);
      StripProperties(s[1..], base);
    }
  }

  lemma {:induction false} ValueSkipsZero(s: string, base: nat)
    requires s != "" && AllDigits(s, base) && s[0] == '0'
    ensures Value(s[1..], base) == Value(s, base)
  {
    if |s| > 1 {
      var front := s[..|s| - 1];
      ValueSkipsZero(front, base);
      assert s[1..][..|s| - 2] == front[1..];
    }
  }

  lemma AtLeast(v: nat, base: nat)
    requires v >= 1
    ensures v * base >= base
  {
  }

  lemma {:induction false} CanonicalPositive(s: string, base: nat)
    requires Canonical(s) && AllDigits(s, base) && |s| > 1
    ensures Value(s, base) >= base
  {
    var front := s[..|s| - 1];
    if |front| == 1 {
      assert front[..0] == "" && Value(front, base) == DigitValue(s[0]) >= 1;
    } else {
      CanonicalPositive(front, base);
    }
    AtLeast(Value(front, base), base);
  }

  lemma DigitsSnoc(q: nat, r: nat, base: nat)
    requires r < base && (base == 10 || base == 36) && q * base + r >= base
    ensures Digits(q * base + r, base) == Digits(q, base) + [DigitChar(r)]
  {
    QuotientAndRemainder(q, r, base);
  }

  /** Formatting what was parsed gives the numeral back in canonical form. */
  lemma {:induction false} DigitsOfValue(s: string, base: nat)
    requires (base == 10 || base == 36) && Canonical(s) && AllDigits(s, base)
    ensures Digits(Value(s, base), base) == s
  {
    DigitCharUnique(s[|s| - 1]);
    if |s| == 1 {
      assert s[..0] == "";
    } else {
      CanonicalPositive(s, base);
      DigitsOfValue(s[..|s| - 1], base);
      DigitsOfLonger(s, base);
    }
  }

  lemma DigitsOfLonger(s: string, base: nat)
    requires (base == 10 || base == 36) && |s| > 1 && AllDigits(s, base) && Value(s, base) >= base
    ensures Digits(Value(s, base), base)
            == Digits(Value(s[..|s| - 1], base), base) + [DigitChar(DigitValue(s[|s| - 1]))]
  {
    DigitsSnoc(Value(s[..|s| - 1], base), DigitValue(s[|s| - 1]), base);
  }

  lemma DigitCharUnique(c: char)
    requires DigitValue(c) < 36 && !('A' <= c <= 'Z')
    ensures DigitChar(DigitValue(c)) == c
  {
  }

  lemma QuotientAndRemainder(q: nat, r: nat, base: nat)
    requires r < base && (base == 10 || base == 36)
    ensures (q * base + r) / base == q && (q * base + r) % base == r
  {
    if base == 10 {
      assert (q * 10 + r) / 10 == q;
    } else {
      assert (q * 36 + r) / 36 == q;
    }
  }

  /******* Cluster names *******/

  function Pow(base: nat, n: nat): nat {
    if n == 0 then 1 else base * Pow(base, n - 1)
  }

  /** One to twelve lower-case letters or digits. */
  predicate ValidName(name: string) {
    1 <= |name| <= 12 && forall i :: 0 <= i < |name| ==> '0' <= name[i] <= '9' || 'a' <= name[i] <= 'z'
  }

  /** Fails on an empty numeral, on a character that is not a digit, and beyond 64 bits. */
  function Base36Decode(name: string): Option<nat> {
    if name == "" || !AllDigits(name, 36) || Value(name, 36) > U64_MAX then None
    else Some(Value(name, 36))
  }

  function Base36Encode(id: nat): string {
    Digits(id, 36)
  }

  lemma {:induction false} ValueBound(s: string)
    requires AllDigits(s, 36)
    ensures Value(s, 36) < Pow(36, |s|)
  {
    if s != "" {
      ValueBound(s[..|s| - 1]);
    }
  }

  lemma {:induction false} PowMonotone(base: nat, m: nat, n: nat)
    requires base >= 1 && m <= n
    ensures 1 <= Pow(base, m) <= Pow(base, n)
    decreases n
  {
    if m == n {
      if m > 0 {
        PowMonotone(base, m - 1, n - 1);
        assert base * Pow(base, m - 1) >= 1;
      }
    } else {
      PowMonotone(base, m, n - 1);
      assert base * Pow(base, n - 1) >= Pow(base, n - 1);
    }
  }

  lemma TwelveDigits()
    ensures Pow(36, 12) == 4738381338321616896 <= U64_MAX
  {
    assert Pow(36, 2) == 1296;
    assert Pow(36, 4) == 1679616;
    assert Pow(36, 6) == 2176782336;
    assert Pow(36, 8) == 2821109907456;
    assert Pow(36, 10) == 3656158440062976;
  }

  /** No accepted name can fail to decode, and encoding the id gives the name back without its
      leading zeros. */
  lemma NameRoundTrip(name: string)
    requires ValidName(name)
    ensures Base36Decode(name).Some? && Base36Decode(name).value < Pow(36, 12)
    ensures Base36Encode(Base36Decode(name).value) == Strip(name)
  {
    ValueBound(name);
    PowMonotone(36, |name|, 12);
    TwelveDigits();
    StripProperties(name, 36);
    DigitsOfValue(Strip(name), 36);
  }

  /** Two clusters share a deployment id exactly when their names differ in leading zeros only. */
  lemma NamesCollideExactly(a: string, b: string)
    requires ValidName(a) && ValidName(b)
    ensures Base36Decode(a) == Base36Decode(b) <==> Strip(a) == Strip(b)
  {
    NameRoundTrip(a);
    NameRoundTrip(b);
    StripProperties(a, 36);
    StripProperties(b, 36);
  }

  /** The digits are 0 to 9 and then a to z, in this order, and capitals are read like small letters. */
  lemma DigitsInOrder()
    ensures DigitChar(0) == '0' && DigitChar(9) == '9' && DigitChar(10) == 'a' && DigitChar(35) == 'z'
    ensures forall d :: 0 <= d < 35 && d != 9 ==> DigitChar(d + 1) as int == DigitChar(d) as int + 1
    ensures forall d :: 10 <= d < 36 ==> DigitValue((DigitChar(d) as int - 32) as char) == d
    ensures 'a' as int - 32 == 'A' as int
  {
  }

  /** So single letters and the first number of two digits are as expected. */
  lemma DecodedExamples()
    ensures Base36Decode("a") == Some(10) && Base36Decode("Z") == Some(35) && Base36Decode("10") == Some(36)
  {
    assert "a"[..0] == "" && "Z"[..0] == "" && "10"[..1] == "1" && "1"[..0] == "";
    assert Value("1", 36) == 1;
  }
}
