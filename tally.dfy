/** A JavaScript object used as a dictionary from string keys to running
    totals, read back with `Object.entries`/`Object.values`: an association
    list in key-insertion order. */
module Tally {
  import opened Wrappers

  datatype Bucket<V> = Bucket(key: string, value: V)

  function IndexOfKey<V>(t: seq<Bucket<V>>, k: string): (r: Option<nat>)
    ensures r.Some? ==> r.value < |t| && t[r.value].key == k
    ensures r.None? <==> forall i :: 0 <= i < |t| ==> t[i].key != k
  {
    if t == [] then None
    else if t[0].key == k then Some(0)
    else match IndexOfKey(t[1..], k)
      case None => None
      case Some(i) => Some(i + 1)
  }

  /** `d[k] = (d[k] || zero) + v`: adds `v` to the bucket of `k`, opening it
      at the end when `k` is new. */
  function Bump<V>(t: seq<Bucket<V>>, k: string, v: V, add: (V, V) -> V): (r: seq<Bucket<V>>)
    ensures IndexOfKey(t, k).Some? ==> r == t[IndexOfKey(t, k).value := Bucket(k, add(t[IndexOfKey(t, k).value].value, v))]
    ensures IndexOfKey(t, k).None? ==> r == t + [Bucket(k, v)]
  {
    match IndexOfKey(t, k)
    case Some(i) => t[i := Bucket(k, add(t[i].value, v))]
    case None => t + [Bucket(k, v)]
  }

  function Keys<V>(t: seq<Bucket<V>>): set<string> {
    set i | 0 <= i < |t| :: t[i].key
  }

  predicate DistinctKeys<V>(t: seq<Bucket<V>>) {
    forall i, j :: 0 <= i < j < |t| ==> t[i].key != t[j].key
  }

  /** Bumping keeps the keys distinct and adds exactly `k` to them. */
  lemma BumpKeys<V>(t: seq<Bucket<V>>, k: string, v: V, add: (V, V) -> V)
    ensures DistinctKeys(t) ==> DistinctKeys(Bump(t, k, v, add))
    ensures Keys(Bump(t, k, v, add)) == Keys(t) + {k}
  {
    var r := Bump(t, k, v, add);
    match IndexOfKey(t, k)
    case Some(i) =>
      assert forall j :: 0 <= j < |t| ==> r[j].key == t[j].key;
      assert Keys(r) == Keys(t);
    case None =>
      assert forall j :: 0 <= j < |t| ==> r[j] == t[j];
      assert r[|t|].key == k;
      assert Keys(r) == Keys(t) + {k} by {
        forall x | x in Keys(r) ensures x in Keys(t) + {k} {
          var j :| 0 <= j < |r| && r[j].key == x;
        }
      }
  }

  /** The sum of one real-valued view `f` of the buckets. */
  function SumBy<V>(t: seq<Bucket<V>>, f: V -> real): real {
    if t == [] then 0.0 else SumBy(t[..|t| - 1], f) + f(t[|t| - 1].value)
  }

  lemma {:induction false} SumByUpdate<V>(t: seq<Bucket<V>>, i: int, b: Bucket<V>, f: V -> real)
    requires 0 <= i < |t|
    ensures SumBy(t[i := b], f) == SumBy(t, f) - f(t[i].value) + f(b.value)
  {
    var u := t[i := b];
    if i < |t| - 1 {
      assert u[..|u| - 1] == t[..|t| - 1][i := b];
      SumByUpdate(t[..|t| - 1], i, b, f);
    } else {
      assert u[..|u| - 1] == t[..|t| - 1];
    }
  }

  /** When `f` turns `add` into `+`, bumping by `v` raises the sum by `f(v)`. */
  lemma SumByBump<V>(t: seq<Bucket<V>>, k: string, v: V, add: (V, V) -> V, f: V -> real)
    requires forall a, b :: f(add(a, b)) == f(a) + f(b)
    ensures SumBy(Bump(t, k, v, add), f) == SumBy(t, f) + f(v)
  {
    match IndexOfKey(t, k)
    case Some(i) =>
      SumByUpdate(t, i, Bucket(k, add(t[i].value, v)), f);
    case None =>
      assert (t + [Bucket(k, v)])[..|t|] == t;
  }

  /** The dictionary a `forEach` builds: item by item, in order. */
  function TallyOf<T, V>(xs: seq<T>, keyOf: T -> string, valueOf: T -> V, add: (V, V) -> V): seq<Bucket<V>> {
    if xs == [] then []
    else Bump(TallyOf(xs[..|xs| - 1], keyOf, valueOf, add), keyOf(xs[|xs| - 1]), valueOf(xs[|xs| - 1]), add)
  }

  /** `xs.reduce((s, x) => s + g(x), 0)`. */
  function SumMap<T>(xs: seq<T>, g: T -> real): real {
    if xs == [] then 0.0 else SumMap(xs[..|xs| - 1], g) + g(xs[|xs| - 1])
  }

  /** One bucket per distinct key that occurs, and no other. */
  lemma {:induction false} TallyKeys<T, V>(xs: seq<T>, keyOf: T -> string, valueOf: T -> V, add: (V, V) -> V)
    ensures DistinctKeys(TallyOf(xs, keyOf, valueOf, add))
    ensures Keys(TallyOf(xs, keyOf, valueOf, add)) == set i | 0 <= i < |xs| :: keyOf(xs[i])
  {
    if xs != [] {
      var init := xs[..|xs| - 1];
      TallyKeys(init, keyOf, valueOf, add);
      BumpKeys(TallyOf(init, keyOf, valueOf, add), keyOf(xs[|xs| - 1]), valueOf(xs[|xs| - 1]), add);
      var want := set i | 0 <= i < |xs| :: keyOf(xs[i]);
      var had := set i | 0 <= i < |init| :: keyOf(init[i]);
      assert want == had + {keyOf(xs[|xs| - 1])} by {
        forall x | x in want ensures x in had + {keyOf(xs[|xs| - 1])} {
          var i :| 0 <= i < |xs| && keyOf(xs[i]) == x;
          if i < |init| {
            assert init[i] == xs[i];
          }
        }
        forall x | x in had ensures x in want {
          var i :| 0 <= i < |init| && keyOf(init[i]) == x;
          assert xs[i] == init[i];
        }
      }
    }
  }

  /** The buckets' `f`-view adds up to the items' `f`-view `g`: nothing is
      lost or counted twice. */
  lemma {:induction false} TallySum<T, V>(xs: seq<T>, keyOf: T -> string, valueOf: T -> V, add: (V, V) -> V,
                                          f: V -> real, g: T -> real)
    requires forall a, b :: f(add(a, b)) == f(a) + f(b)
    requires forall x :: g(x) == f(valueOf(x))
    ensures SumBy(TallyOf(xs, keyOf, valueOf, add), f) == SumMap(xs, g)
  {
    if xs != [] {
      var init := xs[..|xs| - 1];
      TallySum(init, keyOf, valueOf, add, f, g);
      SumByBump(TallyOf(init, keyOf, valueOf, add), keyOf(xs[|xs| - 1]), valueOf(xs[|xs| - 1]), add, f);
    }
  }

  /** A sum of terms none of which is negative is not negative. */
  lemma {:induction false} SumMapNonNegative<T>(xs: seq<T>, g: T -> real)
    ensures (forall i :: 0 <= i < |xs| ==> g(xs[i]) >= 0.0) ==> SumMap(xs, g) >= 0.0
  {
    if xs != [] {
      var init := xs[..|xs| - 1];
      assert forall i :: 0 <= i < |init| ==> init[i] == xs[i];
      SumMapNonNegative(init, g);
    }
  }

  lemma {:induction false} SumMapAdd<T>(xs: seq<T>, g: T -> real, h: T -> real, gh: T -> real)
    requires forall x :: gh(x) == g(x) + h(x)
    ensures SumMap(xs, gh) == SumMap(xs, g) + SumMap(xs, h)
  {
    if xs != [] {
      SumMapAdd(xs[..|xs| - 1], g, h, gh);
    }
  }
}
