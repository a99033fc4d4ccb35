/** The list operations the user aggregate applies to its reminder ids: an id
    list is ordered, may hold duplicates, and removal takes out only the first
    occurrence of a value. */
module Lists {

  /** The position of the first occurrence of `x` in `s`. */
  function FirstIndex<T(==)>(s: seq<T>, x: T): (i: nat)
    requires x in s
    ensures i < |s| && s[i] == x
    ensures x !in s[..i]
  {
    if s[0] == x then 0
    else
      var j := FirstIndex(s[1..], x);
      assert s[..j + 1] == [s[0]] + s[1..][..j];
      j + 1
  }

  /** `s` with the first occurrence of `x` taken out, the others kept in
      order; `s` itself when `x` does not occur (the list's `Remove`, whose
      boolean answer is `x in s`). */
  function RemoveFirst<T(==)>(s: seq<T>, x: T): (r: seq<T>)
    ensures x !in s ==> r == s
    ensures x in s ==> |r| == |s| - 1
    ensures x in s ==> exists i :: 0 <= i < |s| && s[i] == x && x !in s[..i] && r == s[..i] + s[i + 1..]
    ensures multiset(r) == multiset(s) - multiset{x}
  {
    if x in s then
      var i := FirstIndex(s, x);
      assert s == s[..i] + [x] + s[i + 1..];
      assert 0 <= i < |s| && s[i] == x && x !in s[..i];
      s[..i] + s[i + 1..]
    else s
  }
}
