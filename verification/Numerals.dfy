/** Decimal numerals, as strconv.Itoa writes them and strconv.Atoi reads them. */
module Numerals {
  import opened Common

  const MAX_INT := 0x7FFF_FFFF_FFFF_FFFF

  predicate Digit(c: char) {
    '0' <= c <= '9'
  }

  function DigitOf(n: nat): char
    requires n < 10
  {
    '0' + n as char
  }

  function NatNumeral(n: nat): (s: string)
    ensures s != "" && forall i :: 0 <= i < |s| ==> Digit(s[i])
  {
    if n < 10 then [DigitOf(n)] else NatNumeral(n / 10) + [DigitOf(n % 10)]
  }

  function Itoa(n: int): string {
    if n < 0 then "-" + NatNumeral(-n) else NatNumeral(n)
  }

  function Worth(c: char): nat
    requires Digit(c)
  {
    c as int - '0' as int
  }

  function NatValue(s: string): (n: nat)
    requires forall i :: 0 <= i < |s| ==> Digit(s[i])
  {
    if s == "" then 0 else 10 * NatValue(s[..|s| - 1]) + Worth(s[|s| - 1])
  }

  predicate AllDigits(s: string) {
    s != "" && forall i :: 0 <= i < |s| ==> Digit(s[i])
  }

  function Unsigned(s: string, limit: nat): Option<nat> {
    if AllDigits(s) && NatValue(s) <= limit then Some(NatValue(s)) else None
  }

  function Negated(n: int): Option<int> {
    Some(-n)
  }

  /** An optional sign and digits, within 64 bits. */
  function Atoi(s: string): Option<int> {
    if s != "" && s[0] == '-' then
      var n := Unsigned(s[1..], MAX_INT + 1);
      if n.Some? then Negated(n.value) else None
    else
      var n := Unsigned(if s != "" && s[0] == '+' then s[1..] else s, MAX_INT);
      if n.Some? then Some(n.value) else None
  }

  lemma {:induction false} NatRoundTrip(n: nat)
    ensures NatValue(NatNumeral(n)) == n
  {
    if n >= 10 {
      NatRoundTrip(n / 10);
      assert NatNumeral(n)[..|NatNumeral(n)| - 1] == NatNumeral(n / 10);
    }
  }

  lemma ItoaInjective(m: int, n: int)
    requires Itoa(m) == Itoa(n)
    ensures m == n
  {
    assert (m < 0) == (Itoa(m)[0] == '-') && (n < 0) == (Itoa(n)[0] == '-');
    if m < 0 {
      assert Itoa(m)[1..] == NatNumeral(-m) && Itoa(n)[1..] == NatNumeral(-n);
      NatRoundTrip(-m);
      NatRoundTrip(-n);
    } else {
      NatRoundTrip(m);
      NatRoundTrip(n);
    }
  }

  predicate Canonical(s: string) {
    AllDigits(s) && (|s| > 1 ==> s[0] != '0')
  }

  /** A numeral without leading zeros is the one its value is written as. */
  lemma {:induction false} CanonicalRoundTrip(s: string)
    requires Canonical(s)
    ensures NatNumeral(NatValue(s)) == s && (s != "0" ==> NatValue(s) > 0)
  {
    var front, last := s[..|s| - 1], s[|s| - 1];
    assert s == front + [last];
    if front != "" {
      CanonicalRoundTrip(front);
      assert NatValue(s) / 10 == NatValue(front) && NatValue(s) % 10 == Worth(last);
    }
  }

  lemma ShortValue(s: string)
    requires AllDigits(s) && |s| <= 4
    ensures NatValue(s) < 10_000
  {
    var a := s[..|s| - 1];
    if |s| > 1 {
      var b := a[..|a| - 1];
      if |s| > 2 {
        var c := b[..|b| - 1];
        assert |s| > 3 ==> NatValue(c) == Worth(c[0]);
        assert NatValue(b) < 100;
      }
      assert NatValue(a) < 1000;
    }
  }

  /** Reading a short canonical numeral and writing it again gives it back. */
  lemma ShortNumeral(s: string)
    requires Canonical(s) && s != "0" && |s| <= 4
    ensures Atoi(s).Some? && 0 < Atoi(s).value < 10_000 && Itoa(Atoi(s).value) == s
  {
    CanonicalRoundTrip(s);
    ShortValue(s);
  }
}
