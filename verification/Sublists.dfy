/** Sequences with some positions left out. */
module Sublists {

  /** `xs` is `ys` with some positions left out. */
  ghost predicate Sublist<T>(xs: seq<T>, ys: seq<T>) {
    if ys == [] then xs == []
    else
      || Sublist(xs, ys[1..])
      || (xs != [] && xs[0] == ys[0] && Sublist(xs[1..], ys[1..]))
  }

  lemma {:induction false} SublistSnoc<T>(xs: seq<T>, ys: seq<T>, y: T)
    requires Sublist(xs, ys)
    ensures Sublist(xs, ys + [y]) && Sublist(xs + [y], ys + [y])
  {
    if ys == [] {
      assert ([y])[1..] == [] && [] + [y] == [y];
    } else {
      assert (ys + [y])[1..] == ys[1..] + [y];
      if Sublist(xs, ys[1..]) {
        SublistSnoc(xs, ys[1..], y);
      } else {
        SublistSnoc(xs[1..], ys[1..], y);
        assert (xs + [y])[1..] == xs[1..] + [y];
      }
    }
  }

  /** What is left of a prefix is left of every longer one. */
  lemma {:induction false} SublistGrows<T>(xs: seq<T>, ys: seq<T>, n: nat, m: nat)
    requires n <= m <= |ys| && Sublist(xs, ys[..n])
    ensures Sublist(xs, ys[..m])
  {
    if n < m {
      SublistGrows(xs, ys, n, m - 1);
      SublistSnoc(xs, ys[..m - 1], ys[m - 1]);
      assert ys[..m - 1] + [ys[m - 1]] == ys[..m];
    }
  }
}
