/** Order facts about lists that the page filters: a filtered list keeps the order of the
    list it was taken from. */
module Seqs {

  /** `xs` is `ys` with some elements left out, the rest kept in order. */
  predicate IsSubsequence<T(==)>(xs: seq<T>, ys: seq<T>) {
    xs == [] || (ys != [] && (if xs[0] == ys[0] then IsSubsequence(xs[1..], ys[1..])
                              else IsSubsequence(xs, ys[1..])))
  }

  lemma {:induction false} SubsequenceOfTail<T>(xs: seq<T>, ys: seq<T>)
    requires ys != [] && IsSubsequence(xs, ys[1..])
    ensures IsSubsequence(xs, ys)
  {
    if xs != [] && xs[0] == ys[0] {
      // xs[1..] is a subsequence of ys[1..], since xs itself is.
      DropHead(xs, ys[1..]);
    }
  }

  lemma {:induction false} DropHead<T>(xs: seq<T>, ys: seq<T>)
    requires xs != [] && IsSubsequence(xs, ys)
    ensures IsSubsequence(xs[1..], ys)
  {
    assert ys != [];
    if xs[0] == ys[0] {
      if xs[1..] != [] {
        SubsequenceOfTail(xs[1..], ys);
      }
    } else {
      DropHead(xs, ys[1..]);
      if xs[1..] != [] {
        SubsequenceOfTail(xs[1..], ys);
      }
    }
  }
}
