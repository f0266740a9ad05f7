/** `Array.prototype.filter` on immutable sequences: the kept elements in
    their original order. */
module Lists {

  function Filter<T(!new)>(xs: seq<T>, keep: T -> bool): (r: seq<T>)
    ensures forall x :: x in r <==> x in xs && keep(x)
    ensures forall i :: 0 <= i < |r| ==> keep(r[i])
    ensures |r| <= |xs|
  {
    if xs == [] then []
    else
      var init := Filter(xs[..|xs| - 1], keep);
      assert forall x :: x in xs <==> x in xs[..|xs| - 1] || x == xs[|xs| - 1];
      if keep(xs[|xs| - 1]) then init + [xs[|xs| - 1]] else init
  }

  /** Filtering one more element appends it exactly when it is kept. */
  lemma {:induction false} FilterSnoc<T(!new)>(xs: seq<T>, x: T, keep: T -> bool)
    ensures Filter(xs + [x], keep) == Filter(xs, keep) + (if keep(x) then [x] else [])
  {
    assert (xs + [x])[..|xs + [x]| - 1] == xs;
  }

  lemma {:induction false} FilterAppend<T(!new)>(xs: seq<T>, ys: seq<T>, keep: T -> bool)
    ensures Filter(xs + ys, keep) == Filter(xs, keep) + Filter(ys, keep)
    decreases |ys|
  {
    if ys == [] {
      assert xs + ys == xs;
    } else {
      var init, y := ys[..|ys| - 1], ys[|ys| - 1];
      assert xs + ys == (xs + init) + [y];
      assert ys == init + [y];
      FilterSnoc(xs + init, y, keep);
      FilterAppend(xs, init, keep);
      FilterSnoc(init, y, keep);
    }
  }

  /** A filter that keeps everything is the identity. */
  lemma {:induction false} FilterAll<T(!new)>(xs: seq<T>, keep: T -> bool)
    requires forall i :: 0 <= i < |xs| ==> keep(xs[i])
    ensures Filter(xs, keep) == xs
  {
    if xs != [] {
      FilterAll(xs[..|xs| - 1], keep);
    }
  }

  /** A filter that keeps nothing yields the empty sequence. */
  lemma {:induction false} FilterNone<T(!new)>(xs: seq<T>, keep: T -> bool)
    requires forall i :: 0 <= i < |xs| ==> !keep(xs[i])
    ensures Filter(xs, keep) == []
  {
    if xs != [] {
      FilterNone(xs[..|xs| - 1], keep);
    }
  }

  /** `xs.filter(x => x.id !== id)`: every element with another key, in
      order. */
  function WithoutKey<T(!new)>(xs: seq<T>, key: T -> int, k: int): (r: seq<T>)
    ensures forall x :: x in r <==> x in xs && key(x) != k
    ensures forall i :: 0 <= i < |r| ==> key(r[i]) != k
    ensures |r| <= |xs|
  {
    Filter(xs, (x: T) => key(x) != k)
  }

  /** One more element survives the removal exactly when its key differs, so
      the survivors keep their order. */
  lemma WithoutKeySnoc<T(!new)>(xs: seq<T>, x: T, key: T -> int, k: int)
    ensures WithoutKey(xs + [x], key, k) == WithoutKey(xs, key, k) + (if key(x) != k then [x] else [])
  {
    FilterSnoc(xs, x, (y: T) => key(y) != k);
  }

  /** Removing a key no element has changes nothing. */
  lemma WithoutAbsentKey<T(!new)>(xs: seq<T>, key: T -> int, k: int)
    requires forall i :: 0 <= i < |xs| ==> key(xs[i]) != k
    ensures WithoutKey(xs, key, k) == xs
  {
    FilterAll(xs, (y: T) => key(y) != k);
  }

  /** `xs.map(x => x.id === k ? y : x)`: every element with key `k` becomes
      `y`, every other one stays where it is. */
  function ReplaceKey<T>(xs: seq<T>, key: T -> int, k: int, y: T): (r: seq<T>)
    ensures |r| == |xs|
    ensures forall i :: 0 <= i < |xs| ==> r[i] == if key(xs[i]) == k then y else xs[i]
  {
    if xs == [] then []
    else ReplaceKey(xs[..|xs| - 1], key, k, y) + [if key(xs[|xs| - 1]) == k then y else xs[|xs| - 1]]
  }
}
