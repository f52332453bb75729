/** Values and small facts shared by the other modules. */
module Common {

  datatype Option<+T> = None | Some(value: T)

  function Min(a: int, b: int): int {
    if a < b then a else b
  }

  /** No element of s occurs twice. */
  ghost predicate Distinct<T>(s: seq<T>) {
    forall i, j :: 0 <= i < j < |s| ==> s[i] != s[j]
  }

  lemma SliceSnoc<T>(s: seq<T>, from: nat, to: nat)
    requires from <= to < |s|
    ensures s[from..to + 1] == s[from..to] + [s[to]]
  {}

  /** s without every occurrence of x, in the same order. */
  function Without<T(==,!new)>(s: seq<T>, x: T): (r: seq<T>)
    ensures forall y :: y in r <==> y in s && y != x
    ensures Distinct(s) ==> Distinct(r)
  {
    if s == [] then []
    else if s[0] == x then Without(s[1..], x)
    else
      assert Distinct(s) ==> Distinct(s[1..]) && s[0] !in s[1..];
      [s[0]] + Without(s[1..], x)
  }
}
