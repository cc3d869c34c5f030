/** Python's `list.sort(key=...)`: a stable sort. Entries pair a column name
    with the key it is sorted by; a `reverse=True` sort is a sort by the negated
    key, which Python also keeps stable. */
module StableSort {

  datatype Keyed = Keyed(name: string, key: int)

  ghost predicate Ascending(xs: seq<Keyed>)
  {
    forall i, j :: 0 <= i < j < |xs| ==> xs[i].key <= xs[j].key
  }

  /** The entries of `xs` whose key is `k`, in their order in `xs`. */
  function WithKey(xs: seq<Keyed>, k: int): seq<Keyed>
    decreases |xs|
  {
    if |xs| == 0 then [] else (if xs[0].key == k then [xs[0]] else []) + WithKey(xs[1..], k)
  }

  /** Inserts `x` before the first entry whose key is not smaller. */
  function Insert(x: Keyed, ys: seq<Keyed>): (r: seq<Keyed>)
    ensures |r| == |ys| + 1
    ensures multiset(r) == multiset(ys) + multiset{x}
    ensures forall e :: e in r <==> e == x || e in ys
    decreases |ys|
  {
    if |ys| == 0 || x.key <= ys[0].key then [x] + ys
    else
      assert ys == [ys[0]] + ys[1..];
      [ys[0]] + Insert(x, ys[1..])
  }

  /** Inserting into an ascending list keeps it ascending. */
  lemma {:induction false} InsertAscending(x: Keyed, ys: seq<Keyed>)
    requires Ascending(ys)
    ensures Ascending(Insert(x, ys))
    decreases |ys|
  {
    if |ys| == 0 || x.key <= ys[0].key {
      ConsAscending(x, ys);
    } else {
      var t := Insert(x, ys[1..]);
      InsertAscending(x, ys[1..]);
      assert ys == [ys[0]] + ys[1..];
      assert forall e :: e in t ==> ys[0].key <= e.key;
      ConsAscending(ys[0], t);
    }
  }

  lemma ConsAscending(h: Keyed, t: seq<Keyed>)
    requires Ascending(t)
    requires forall e :: e in t ==> h.key <= e.key
    ensures Ascending([h] + t)
  {
    var r := [h] + t;
    forall i, j | 0 <= i < j < |r|
      ensures r[i].key <= r[j].key
    {
      if i > 0 {
        assert r[i] == t[i - 1] && r[j] == t[j - 1];
      } else {
        assert r[j] == t[j - 1];
        assert r[j] in t;
      }
    }
  }

  /** The list sorted by ascending key; equal keys keep their order. */
  function Sort(xs: seq<Keyed>): (r: seq<Keyed>)
    ensures |r| == |xs|
    ensures multiset(r) == multiset(xs)
    ensures forall e :: e in r <==> e in xs
    ensures Ascending(r)
    decreases |xs|
  {
    if |xs| == 0 then []
    else
      assert xs == [xs[0]] + xs[1..];
      InsertAscending(xs[0], Sort(xs[1..]));
      Insert(xs[0], Sort(xs[1..]))
  }

  lemma {:induction false} InsertWithKey(x: Keyed, ys: seq<Keyed>, k: int)
    ensures WithKey(Insert(x, ys), k) == (if x.key == k then [x] else []) + WithKey(ys, k)
    decreases |ys|
  {
    if |ys| == 0 || x.key <= ys[0].key {
      assert ([x] + ys)[1..] == ys;
    } else {
      InsertWithKey(x, ys[1..], k);
      var r := Insert(x, ys);
      var a := if ys[0].key == k then [ys[0]] else [];
      var b := if x.key == k then [x] else [];
      assert r[0] == ys[0] && r[1..] == Insert(x, ys[1..]);
      assert WithKey(r, k) == a + (b + WithKey(ys[1..], k));
      assert a == [] || b == [];
      assert WithKey(ys, k) == a + WithKey(ys[1..], k);
    }
  }

  /** Stability: for every key, the entries with that key come out in the
      order they went in. */
  lemma {:induction false} SortIsStable(xs: seq<Keyed>, k: int)
    ensures WithKey(Sort(xs), k) == WithKey(xs, k)
    decreases |xs|
  {
    if |xs| > 0 {
      SortIsStable(xs[1..], k);
      InsertWithKey(xs[0], Sort(xs[1..]), k);
    }
  }

  /** The entries of a prefix with a given key are a prefix of the entries
      with that key. */
  lemma {:induction false} WithKeyOfPrefix(xs: seq<Keyed>, n: nat, k: int)
    requires n <= |xs|
    ensures var w := WithKey(xs[..n], k); |w| <= |WithKey(xs, k)| && w == WithKey(xs, k)[..|w|]
    decreases n
  {
    if n > 0 {
      WithKeyOfPrefix(xs[1..], n - 1, k);
      assert xs[..n][1..] == xs[1..][..n - 1];
      assert xs[..n][0] == xs[0];
    }
  }

  /** The first `n` entries of the sorted list, restricted to one key, are the
      first entries of the input with that key, in input order. */
  lemma SortedPrefixWithKey(xs: seq<Keyed>, n: nat, k: int)
    requires n <= |xs|
    ensures var w := WithKey(Sort(xs)[..n], k); |w| <= |WithKey(xs, k)| && w == WithKey(xs, k)[..|w|]
  {
    SortIsStable(xs, k);
    WithKeyOfPrefix(Sort(xs), n, k);
  }
}
