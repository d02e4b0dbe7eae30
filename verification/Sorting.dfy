/** Stable sorting by descending key. */
module Sorting {

  ghost predicate Descending<T>(xs: seq<T>, key: T -> real) {
    forall i, j :: 0 <= i < j < |xs| ==> key(xs[i]) >= key(xs[j])
  }

  // Puts x behind the elements that tie with it.
  function Insert<T>(x: T, xs: seq<T>, key: T -> real): (r: seq<T>)
    requires Descending(xs, key)
    ensures Descending(r, key) && multiset(r) == multiset(xs) + multiset{x}
  {
    if xs == [] || key(x) > key(xs[0]) then [x] + xs
    else
      var rest := Insert(x, xs[1..], key);
      InsertKeepsHead(x, xs, key, rest);
      [xs[0]] + rest
  }

  lemma InsertKeepsHead<T>(x: T, xs: seq<T>, key: T -> real, rest: seq<T>)
    requires xs != [] && Descending(xs, key) && Descending(rest, key) && key(x) <= key(xs[0])
    requires multiset(rest) == multiset(xs[1..]) + multiset{x}
    ensures Descending([xs[0]] + rest, key)
    ensures multiset([xs[0]] + rest) == multiset(xs) + multiset{x}
  {
    assert xs == [xs[0]] + xs[1..];
    forall y | y in rest ensures key(xs[0]) >= key(y) {
      assert y in multiset(rest);
      assert y == x || y in xs[1..];
    }
  }

  function SortDescending<T>(xs: seq<T>, key: T -> real): (r: seq<T>)
    ensures Descending(r, key) && multiset(r) == multiset(xs)
  {
    if xs == [] then []
    else
      assert xs == xs[..|xs| - 1] + [xs[|xs| - 1]];
      Insert(xs[|xs| - 1], SortDescending(xs[..|xs| - 1], key), key)
  }

  /** The last element of a permutation, located in the other one. */
  lemma Extract<T>(init: seq<T>, last: T, ys: seq<T>) returns (l: seq<T>, r: seq<T>)
    requires multiset(init + [last]) == multiset(ys)
    ensures ys == l + ([last] + r) && multiset(init) == multiset(l + r)
  {
    assert multiset(init + [last]) == multiset(init) + multiset{last};
    assert last in multiset(ys);
    var k :| 0 <= k < |ys| && ys[k] == last;
    l, r := ys[..k], ys[k + 1..];
    assert ys == l + ([last] + r);
    assert multiset(ys) == multiset(l) + multiset{last} + multiset(r);
    assert multiset(l + r) == multiset(l) + multiset(r);
    assert multiset(init) == multiset(ys) - multiset{last};
  }
}
