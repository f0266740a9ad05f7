/** `Array.prototype.sort` with a comparator that orders by a string key,
    newest first: a stable sort, written as insertion of each element, in
    order, behind every element whose key is at least its own. */
module Sorting {
  import opened Text

  /** Keys never increase along the sequence. */
  predicate SortedDesc<T>(xs: seq<T>, key: T -> string) {
    forall i, j :: 0 <= i < j < |xs| ==> LexLe(key(xs[j]), key(xs[i]))
  }

  function Insert<T>(x: T, xs: seq<T>, key: T -> string): (r: seq<T>)
    requires SortedDesc(xs, key)
    ensures SortedDesc(r, key)
    ensures multiset(r) == multiset(xs) + multiset{x}
    ensures |r| == |xs| + 1
  {
    if xs == [] then [x]
    else if LexLt(key(xs[0]), key(x)) then
      InsertFront(x, xs, key);
      [x] + xs
    else
      var rest := Insert(x, xs[1..], key);
      InsertBehind(x, xs, rest, key);
      assert xs == [xs[0]] + xs[1..];
      [xs[0]] + rest
  }

  /** `x` may go first when its key exceeds the head's. */
  lemma InsertFront<T>(x: T, xs: seq<T>, key: T -> string)
    requires SortedDesc(xs, key) && xs != [] && LexLt(key(xs[0]), key(x))
    ensures SortedDesc([x] + xs, key)
  {
    var r := [x] + xs;
    forall i, j | 0 <= i < j < |r| ensures LexLe(key(r[j]), key(r[i])) {
      if i == 0 {
        LexLeTotalOrder(key(xs[j - 1]), key(xs[0]), key(x));
        LexLtIrreflexive(key(x));
        LexLtTotal(key(xs[0]), key(x));
        if key(xs[0]) != key(x) {
          LexLtNotBoth(key(xs[0]), key(x));
        }
      }
    }
  }

  lemma LexLtNotBoth(a: string, b: string)
    requires LexLt(a, b)
    ensures LexLe(a, b)
  {
    if LexLt(b, a) {
      LexLtTransitive(a, b, a);
      LexLtIrreflexive(a);
    }
  }

  /** Otherwise the head stays first and `x` goes into the tail. */
  lemma InsertBehind<T>(x: T, xs: seq<T>, rest: seq<T>, key: T -> string)
    requires SortedDesc(xs, key) && xs != [] && !LexLt(key(xs[0]), key(x))
    requires SortedDesc(rest, key) && multiset(rest) == multiset(xs[1..]) + multiset{x}
    ensures SortedDesc([xs[0]] + rest, key)
  {
    var r := [xs[0]] + rest;
    forall i, j | 0 <= i < j < |r| ensures LexLe(key(r[j]), key(r[i])) {
      if i == 0 {
        var y := rest[j - 1];
        assert y in multiset(rest);
        if y != x {
          assert y in multiset(xs[1..]);
          var k :| 0 <= k < |xs[1..]| && xs[1..][k] == y;
          assert xs[k + 1] == y;
        }
      }
    }
  }

  /** The stable descending sort. */
  function SortDesc<T>(xs: seq<T>, key: T -> string): (r: seq<T>)
    ensures SortedDesc(r, key)
    ensures multiset(r) == multiset(xs)
    ensures |r| == |xs|
  {
    if xs == [] then []
    else
      assert xs == xs[..|xs| - 1] + [xs[|xs| - 1]];
      Insert(xs[|xs| - 1], SortDesc(xs[..|xs| - 1], key), key)
  }
}
