/** UTF-8 as Go's unicode/utf8 and strings.ToValidUTF8 see it; a char stands for one byte. */
module Utf8 {

  predicate In(c: char, lo: int, hi: int) {
    lo <= c as int <= hi
  }

  predicate Continuation(c: char) {
    In(c, 0x80, 0xBF)
  }

  /** The second byte after each lead byte; the ranges shut out overlong forms, surrogates and
      anything past U+10FFFF. */
  predicate SecondByte(lead: char, c: char) {
    if lead as int == 0xE0 then In(c, 0xA0, 0xBF)
    else if lead as int == 0xED then In(c, 0x80, 0x9F)
    else if lead as int == 0xF0 then In(c, 0x90, 0xBF)
    else if lead as int == 0xF4 then In(c, 0x80, 0x8F)
    else Continuation(c)
  }

  /** How many bytes a lead byte announces; 0 if it leads nothing. */
  function Announced(lead: char): (n: nat)
    ensures n <= 4
  {
    if In(lead, 0, 0x7F) then 1
    else if In(lead, 0xC2, 0xDF) then 2
    else if In(lead, 0xE0, 0xEF) then 3
    else if In(lead, 0xF0, 0xF4) then 4
    else 0
  }

  predicate Followed(s: string, n: nat)
    requires 0 < n <= |s|
  {
    (n > 1 ==> SecondByte(s[0], s[1])) && forall i :: 2 <= i < n ==> Continuation(s[i])
  }

  /** The length of the encoding s begins with; 0 if it begins with none. */
  function Width(s: string): (w: nat)
    ensures w <= |s| && w <= 4
    ensures forall i :: 0 < i < w ==> Continuation(s[i])
  {
    if s == "" then 0
    else
      var n := Announced(s[0]);
      if 0 < n <= |s| && Followed(s, n) then n else 0
  }

  predicate Valid(s: string) {
    s == "" || (Width(s) > 0 && Valid(s[Width(s)..]))
  }

  /** ToValidUTF8(s, ""): every byte outside a valid encoding is dropped. */
  function ToValid(s: string): string {
    if s == "" then ""
    else if Width(s) > 0 then s[..Width(s)] + ToValid(s[Width(s)..])
    else ToValid(s[1..])
  }

  lemma WidthPrefix(a: string, b: string)
    requires Width(a) > 0
    ensures Width(a + b) == Width(a)
  {
    assert forall i :: 0 <= i < |a| ==> (a + b)[i] == a[i];
  }

  lemma {:induction false} ValidConcat(a: string, b: string)
    requires Valid(a) && Valid(b)
    ensures Valid(a + b)
    decreases |a|
  {
    if a == "" {
      assert a + b == b;
    } else {
      WidthPrefix(a, b);
      assert (a + b)[Width(a)..] == a[Width(a)..] + b;
      ValidConcat(a[Width(a)..], b);
    }
  }

  lemma {:induction false} ToValidIsValid(s: string)
    ensures Valid(ToValid(s)) && |ToValid(s)| <= |s|
    decreases |s|
  {
    if s != "" {
      var w := Width(s);
      if w > 0 {
        ToValidIsValid(s[w..]);
        var head, tail := s[..w], ToValid(s[w..]);
        assert Width(head) == w;
        WidthPrefix(head, tail);
        assert (head + tail)[w..] == tail;
      } else {
        ToValidIsValid(s[1..]);
      }
    }
  }

  lemma {:induction false} ToValidKeeps(s: string)
    requires Valid(s)
    ensures ToValid(s) == s
    decreases |s|
  {
    if s != "" {
      ToValidKeeps(s[Width(s)..]);
    }
  }

  /** The first rune of a valid text, whole, and the rest. */
  lemma Unfold(s: string) returns (first: string, rest: string)
    requires Valid(s) && s != ""
    ensures s == first + rest && Width(first) == Width(s) == |first| > 0 && Valid(rest)
  {
    first, rest := s[..Width(s)], s[Width(s)..];
  }

  lemma TakeFirst(first: string, rest: string)
    requires Width(first) == |first| > 0
    ensures ToValid(first + rest) == first + ToValid(rest)
  {
    WidthPrefix(first, rest);
    assert (first + rest)[..|first|] == first && (first + rest)[|first|..] == rest;
  }

  lemma Regroup(a: string, b: string, c: string)
    ensures a + b + c == a + (b + c)
  {}

  lemma {:induction false} ToValidFront(a: string, b: string)
    requires Valid(a)
    ensures ToValid(a + b) == a + ToValid(b)
    decreases |a|
  {
    if a == "" {
      assert a + b == b;
    } else {
      var first, rest := Unfold(a);
      Regroup(first, rest, b);
      TakeFirst(first, rest + b);
      ToValidFront(rest, b);
      Regroup(first, rest, ToValid(b));
    }
  }

  /** The first d bytes each start no encoding. */
  predicate Strays(s: string, d: nat)
    requires d <= |s|
  {
    forall i :: 0 <= i < d ==> Width(s[i..]) == 0
  }

  lemma StraysOfRest(s: string, d: nat)
    requires 0 < d <= |s|
    ensures Strays(s, d) <==> Width(s) == 0 && Strays(s[1..], d - 1)
  {
    assert s[0..] == s;
    forall i | 0 <= i < d - 1
      ensures s[1..][i..] == s[i + 1..]
    {}
    if Width(s) == 0 && Strays(s[1..], d - 1) {
      forall i | 0 < i < d
        ensures Width(s[i..]) == 0
      {
        assert s[1..][i - 1..] == s[i..];
      }
    }
  }

  /** Bytes starting no encoding vanish. */
  lemma {:induction false} StraysVanish(s: string, d: nat)
    requires d <= |s| && Strays(s, d)
    ensures ToValid(s) == ToValid(s[d..])
  {
    if d > 0 {
      StraysOfRest(s, d);
      StraysVanish(s[1..], d - 1);
      assert s[1..][d - 1..] == s[d..];
    } else {
      assert s[0..] == s;
    }
  }

  /** Continuation bytes without their lead do. */
  lemma StrayBytes(s: string, d: nat)
    requires d <= |s| && forall i :: 0 <= i < d ==> Continuation(s[i])
    ensures ToValid(s) == ToValid(s[d..])
  {
    forall i | 0 <= i < d
      ensures Width(s[i..]) == 0
    {
      assert s[i..][0] == s[i];
    }
    StraysVanish(s, d);
  }

  lemma {:induction false} NothingLeft(s: string)
    requires ToValid(s) == ""
    ensures Strays(s, |s|)
  {
    if s != "" {
      assert Width(s) == 0;
      NothingLeft(s[1..]);
      StraysOfRest(s, |s|);
    }
  }

  /** Only a text of such bytes vanishes as a whole. */
  lemma VanishesExactlyWhen(s: string)
    ensures |ToValid(s)| == 0 <==> Strays(s, |s|)
  {
    if |ToValid(s)| == 0 {
      NothingLeft(s);
    }
    if Strays(s, |s|) {
      StraysVanish(s, |s|);
    }
  }

  lemma DropDrop(s: string, a: nat, b: nat)
    requires a + b <= |s|
    ensures s[a..][b..] == s[a + b..]
  {}

  /** No valid text begins inside a rune. */
  lemma InsideRune(s: string, m: nat)
    requires 0 < m < Width(s)
    ensures !Valid(s[m..])
  {
    assert s[m..][0] == s[m];
  }

  /** A valid suffix survives whole, and more than it unless all before it are strays. */
  lemma {:induction false} SuffixSurvives(s: string, m: nat)
    requires m <= |s| && Valid(s[m..])
    ensures |ToValid(s)| >= |s| - m
    ensures |ToValid(s)| == |s| - m ==> Strays(s, m)
    decreases |s|
  {
    if m == 0 {
      assert s[0..] == s;
      ToValidKeeps(s);
    } else {
      var w := Width(s);
      if w == 0 {
        DropDrop(s, 1, m - 1);
        SuffixSurvives(s[1..], m - 1);
        StraysOfRest(s, m);
      } else if w <= m {
        DropDrop(s, w, m - w);
        SuffixSurvives(s[w..], m - w);
      } else {
        InsideRune(s, m);
      }
    }
  }

  predicate ValidFrom(s: string, d: nat) {
    d <= |s| && Strays(s, d) && Valid(s[d..])
  }

  /** Strays, then valid text. */
  ghost predicate StraysThenValid(s: string) {
    exists d: nat :: ValidFrom(s, d)
  }

  predicate ValidUpTo(s: string, d: nat) {
    d <= |s| && Valid(s[..d]) && Strays(s[d..], |s| - d)
  }

  /** Valid text, then strays. */
  ghost predicate ValidThenStrays(s: string) {
    exists d: nat :: ValidUpTo(s, d)
  }

  /** Dropping the strays of s leaves its suffix from m on. */
  predicate LeavesSuffix(s: string, m: nat) {
    m <= |s| && ToValid(s) == s[m..]
  }

  predicate LeavesPrefix(s: string, n: nat) {
    n <= |s| && ToValid(s) == s[..n]
  }

  lemma SuffixWithStrays(s: string, m: nat)
    ensures LeavesSuffix(s, m) <==> ValidFrom(s, m)
  {
    if LeavesSuffix(s, m) {
      ToValidIsValid(s);
      SuffixSurvives(s, m);
    }
    if ValidFrom(s, m) {
      StraysVanish(s, m);
      ToValidKeeps(s[m..]);
    }
  }

  /** Dropping the strays leaves a suffix exactly when they all come first. */
  lemma SuffixExactlyWhen(s: string)
    ensures (exists m: nat :: LeavesSuffix(s, m)) <==> StraysThenValid(s)
  {
    forall m: nat
      ensures LeavesSuffix(s, m) <==> ValidFrom(s, m)
    {
      SuffixWithStrays(s, m);
    }
  }

  /** Dropping the strays leaves a prefix exactly when they all come last. */
  lemma PrefixExactlyWhen(s: string)
    ensures (exists n: nat :: LeavesPrefix(s, n)) <==> ValidThenStrays(s)
  {
    forall n: nat
      ensures LeavesPrefix(s, n) <==> ValidUpTo(s, n)
    {
      PrefixWithStrays(s, n);
    }
  }

  lemma ValidPrefixLeft(s: string, n: nat)
    requires n <= |s| && Valid(s[..n])
    ensures ToValid(s) == s[..n] <==> Strays(s[n..], |s| - n)
  {
    var front, back := s[..n], s[n..];
    assert s == front + back;
    ToValidFront(front, back);
    VanishesExactlyWhen(back);
  }

  lemma PrefixWithStrays(s: string, n: nat)
    ensures LeavesPrefix(s, n) <==> ValidUpTo(s, n)
  {
    if LeavesPrefix(s, n) {
      ToValidIsValid(s);
    }
    if n <= |s| && Valid(s[..n]) {
      ValidPrefixLeft(s, n);
    }
  }

  /** What is left of a rune cut in two vanishes. */
  lemma RestOfRune(s: string, k: nat)
    requires 0 < k < Width(s) && Valid(s)
    ensures ToValid(s[k..]) == s[Width(s)..]
  {
    var d := Width(s) - k;
    assert forall i :: 0 <= i < d ==> s[k..][i] == s[k + i];
    StrayBytes(s[k..], d);
    DropDrop(s, k, d);
    ToValidKeeps(s[Width(s)..]);
  }

  lemma DropFirst(first: string, rest: string, k: nat)
    requires |first| <= k <= |first| + |rest|
    ensures (first + rest)[k..] == rest[k - |first|..]
  {}

  /** Cutting the front off valid text costs at most the three bytes of a cut rune more. */
  lemma {:induction false} ValidSuffix(s: string, k: nat) returns (d: nat)
    requires Valid(s) && k <= |s|
    ensures d <= 3 && k + d <= |s| && ToValid(s[k..]) == s[k + d..]
    decreases |s|
  {
    if k == 0 {
      d := 0;
      ToValidKeeps(s);
      assert s[0..] == s;
    } else if k < Width(s) {
      d := Width(s) - k;
      RestOfRune(s, k);
    } else {
      var first, rest := Unfold(s);
      d := ValidSuffix(rest, k - |first|);
      DropFirst(first, rest, k);
      DropFirst(first, rest, k + d);
    }
  }

  /** A rune cut short is no rune. */
  lemma CutRune(s: string, k: nat)
    requires 0 < k < Width(s)
    ensures ToValid(s[..k]) == ""
  {
    var t := s[..k];
    assert Width(t) == 0;
    assert forall i :: 0 <= i < k - 1 ==> t[1..][i] == s[i + 1];
    StrayBytes(t[1..], k - 1);
    assert t[1..][k - 1..] == "";
  }

  /** The same for cutting the end off. */
  lemma {:induction false} ValidPrefix(s: string, k: nat) returns (d: nat)
    requires Valid(s) && k <= |s|
    ensures d <= 3 && d <= k && ToValid(s[..k]) == s[..k - d]
    decreases |s|
  {
    if k == 0 {
      d := 0;
    } else if k < Width(s) {
      d := k;
      CutRune(s, k);
    } else {
      var first, rest := Unfold(s);
      var w := |first|;
      WidthPrefix(first, rest);
      d := ValidPrefix(rest, k - w);
      assert s[..k] == first + rest[..k - w];
      TakeFirst(first, rest[..k - w]);
      assert s[..k - d] == first + rest[..k - w - d];
    }
  }

  /** Valid text stays valid without a final ASCII byte. */
  lemma {:induction false} DropAscii(s: string, c: char)
    requires Valid(s + [c]) && In(c, 0, 0x7F)
    ensures Valid(s)
    decreases |s|
  {
    if s != "" {
      var t := s + [c];
      var w := Width(t);
      assert t[|t| - 1] == c;
      assert s == t[..|s|];
      assert Width(s) == w;
      assert t[w..] == s[w..] + [c];
      DropAscii(s[w..], c);
    }
  }
}
