/**
 * JavaScript objects keyed by small integers, as the rubric tables use them: a table is
 * a sequence of (key, value) pairs in the order `Object.keys` enumerates them, with the
 * lookups, key listings and the stable `Array.prototype.sort` applied to them.
 */
module Tables {
  import opened Wrappers
  import opened JsString

  /** `Object.keys(table)`, as numbers. */
  function Keys<T>(table: seq<(nat, T)>): (r: seq<nat>)
    ensures |r| == |table| && forall k :: 0 <= k < |table| ==> r[k] == table[k].0
  {
    seq(|table|, k requires 0 <= k < |table| => table[k].0)
  }

  /** `Object.values(table)`. */
  function Values<T>(table: seq<(nat, T)>): (r: seq<T>)
    ensures |r| == |table| && forall k :: 0 <= k < |table| ==> r[k] == table[k].1
  {
    seq(|table|, k requires 0 <= k < |table| => table[k].1)
  }

  /** `table[n]`: the value stored under key `n`, if any. */
  function LookupKey<T>(table: seq<(nat, T)>, n: int): (r: Option<T>)
    ensures r.Some? <==> n in Keys(table)
    ensures r.Some? ==> exists k :: 0 <= k < |table| && table[k] == (n as nat, r.value)
  {
    if table == [] then None
    else if table[0].0 == n then Some(table[0].1)
    else
      var r := LookupKey(table[1..], n);
      assert forall k :: 0 <= k < |table| - 1 ==> table[1..][k] == table[k + 1];
      assert n in Keys(table[1..]) <==> n in Keys(table) by {
        assert Keys(table) == [table[0].0] + Keys(table[1..]);
      }
      r
  }

  /** The decimal rendering of each number (`String(n)` inside `Object.keys`). */
  function RenderAll(ns: seq<nat>): (r: seq<string>)
    ensures |r| == |ns| && forall k :: 0 <= k < |ns| ==> r[k] == NatToString(ns[k])
    ensures AllDigits(r)
  {
    seq(|ns|, k requires 0 <= k < |ns| => NatToString(ns[k]))
  }

  predicate AllDigits(ss: seq<string>) {
    forall k, m :: 0 <= k < |ss| && 0 <= m < |ss[k]| ==> IsAsciiDigit(ss[k][m])
  }

  /** `parseInt` over each string of digits. */
  function ParseAll(ss: seq<string>): (r: seq<int>)
    requires AllDigits(ss)
    ensures |r| == |ss| && forall k :: 0 <= k < |ss| ==> r[k] == ParseDigits(ss[k])
  {
    seq(|ss|, k requires 0 <= k < |ss| => ParseDigits(ss[k]) as int)
  }

  /** Parsing the rendered keys gives the keys back. */
  lemma ParseRenderAll(ns: seq<nat>)
    ensures ParseAll(RenderAll(ns)) == seq(|ns|, k requires 0 <= k < |ns| => ns[k] as int)
  {
  }

  /** `keys.join(", ")` over the decimal renderings. */
  function KeyList(keys: seq<nat>): string {
    Join(RenderAll(keys), ", ")
  }

  predicate SortedBy<T>(xs: seq<T>, key: T -> int) {
    forall i, j :: 0 <= i < j < |xs| ==> key(xs[i]) <= key(xs[j])
  }

  /** The first index at or after `from` whose key exceeds `key(x)`. */
  function FirstAbove<T>(x: T, xs: seq<T>, key: T -> int, from: nat): (r: nat)
    requires from <= |xs|
    ensures from <= r <= |xs|
    ensures forall k :: from <= k < r ==> key(xs[k]) <= key(x)
    ensures r < |xs| ==> key(xs[r]) > key(x)
    decreases |xs| - from
  {
    if from == |xs| then from
    else if key(xs[from]) > key(x) then from
    else FirstAbove(x, xs, key, from + 1)
  }

  /** Putting `x` between the elements up to its key and those above it keeps the order. */
  lemma InsertSorted<T>(x: T, xs: seq<T>, key: T -> int, i: nat)
    requires SortedBy(xs, key) && i <= |xs|
    requires forall k :: 0 <= k < i ==> key(xs[k]) <= key(x)
    requires i < |xs| ==> key(xs[i]) > key(x)
    ensures SortedBy(xs[..i] + [x] + xs[i..], key)
  {
    var r := xs[..i] + [x] + xs[i..];
    forall a, b | 0 <= a < b < |r| ensures key(r[a]) <= key(r[b]) {
      if b < i {
        assert r[a] == xs[a] && r[b] == xs[b];
      } else if b == i {
        assert r[a] == xs[a] && r[b] == x;
      } else if a < i {
        assert r[a] == xs[a] && r[b] == xs[b - 1];
        assert key(xs[i]) <= key(xs[b - 1]);
      } else if a == i {
        assert r[a] == x && r[b] == xs[b - 1];
        assert key(xs[i]) <= key(xs[b - 1]);
      } else {
        assert r[a] == xs[a - 1] && r[b] == xs[b - 1];
      }
    }
  }

  /** Inserts `x` after every element whose key is not larger, as a stable sort does. */
  function InsertBy<T>(x: T, xs: seq<T>, key: T -> int): (r: seq<T>)
    requires SortedBy(xs, key)
    ensures SortedBy(r, key)
    ensures multiset(r) == multiset(xs) + multiset{x}
  {
    var i := FirstAbove(x, xs, key, 0);
    InsertSorted(x, xs, key, i);
    assert xs == xs[..i] + xs[i..];
    xs[..i] + [x] + xs[i..]
  }

  /** `Array.prototype.sort` with the comparator `(a, b) => key(a) - key(b)`. */
  function SortBy<T>(xs: seq<T>, key: T -> int): (r: seq<T>)
    ensures SortedBy(r, key)
    ensures multiset(r) == multiset(xs)
  {
    if xs == [] then []
    else
      var r := InsertBy(xs[|xs| - 1], SortBy(xs[..|xs| - 1], key), key);
      assert xs == xs[..|xs| - 1] + [xs[|xs| - 1]];
      r
  }

  /** A sequence that is already in key order is left as it is. */
  lemma {:induction false} SortBySorted<T>(xs: seq<T>, key: T -> int)
    requires SortedBy(xs, key)
    ensures SortBy(xs, key) == xs
    decreases |xs|
  {
    if xs != [] {
      var init := xs[..|xs| - 1];
      assert SortedBy(init, key);
      SortBySorted(init, key);
      var i := FirstAbove(xs[|xs| - 1], init, key, 0);
      assert i == |init|;
      assert xs == init + [xs[|xs| - 1]];
    }
  }
}
