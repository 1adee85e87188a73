/** Facts about the elements of lists, shared by the orderings and the
    totals. */
module Sequences {

  /** A list holds its element at b and the elements of the list without
      it. */
  lemma MultisetTakeOut<T>(s: seq<T>, b: nat)
    requires b < |s|
    ensures multiset(s) == multiset{s[b]} + multiset(s[..b] + s[b + 1..])
  {
    assert s == s[..b] + [s[b]] + s[b + 1..];
  }

  /** Taking one element out of two lists with the same elements leaves
      two lists with the same elements. */
  lemma MultisetRemove<T>(front: seq<T>, x: T, b: seq<T>, j: nat)
    requires j < |b| && b[j] == x
    requires multiset(front + [x]) == multiset(b)
    ensures multiset(front) == multiset(b[..j] + b[j + 1..])
  {
    MultisetTakeOut(b, j);
    assert multiset(front + [x]) == multiset(front) + multiset{x};
    assert multiset(front) == multiset(front + [x]) - multiset{x};
  }
}
