/** Optional values: a missing JSON key, a lookup that found nothing. */
module Wrappers {

  datatype Option<+T> = None | Some(value: T) {

    /** The value, or `default` when absent (Python's `d.get(k, default)`). */
    function GetOr(default: T): T {
      match this
      case Some(v) => v
      case None => default
    }
  }
}

/** Facts about sequences that the loop and induction proofs cite by name. */
module Seqs {

  /** Element `i` of a prefix is element `i` of the whole sequence. */
  lemma PrefixAt<T>(s: seq<T>, k: nat, i: nat)
    requires i < k <= |s|
    ensures s[..k][i] == s[i]
  {
  }

  lemma AppendAssoc<T>(a: seq<T>, b: seq<T>, c: seq<T>)
    ensures (a + b) + c == a + (b + c)
  {
  }

  /** The elements of `s` that satisfy `f`, in their order in `s` (a list comprehension with a condition). */
  function Filter<T(!new)>(s: seq<T>, f: T -> bool): (r: seq<T>)
    ensures forall x :: x in r <==> x in s && f(x)
    decreases |s|
  {
    if s == [] then [] else Filter(s[..|s| - 1], f) + if f(s[|s| - 1]) then [s[|s| - 1]] else []
  }

  /** Filtering keeps order: what comes from an earlier stretch precedes what comes from a later one. */
  lemma {:induction false} FilterAppend<T(!new)>(a: seq<T>, b: seq<T>, f: T -> bool)
    ensures Filter(a + b, f) == Filter(a, f) + Filter(b, f)
    decreases |b|
  {
    if b == [] {
      assert a + b == a;
    } else {
      var init, x := b[..|b| - 1], b[|b| - 1];
      var tail := if f(x) then [x] else [];
      assert (a + b)[..|a + b| - 1] == a + init;
      assert (a + b)[|a + b| - 1] == x;
      assert Filter(a + b, f) == Filter(a + init, f) + tail;
      assert Filter(b, f) == Filter(init, f) + tail;
      FilterAppend(a, init, f);
      AppendAssoc(Filter(a, f), Filter(init, f), tail);
    }
  }
}

/**
 * Python dictionaries with string keys. Iteration order is insertion order and
 * a key occurs at most once, so a dictionary is a sequence of (key, value)
 * entries with distinct keys. Assigning to an existing key keeps its position.
 */
module Dicts {
  import opened Wrappers

  ghost predicate DistinctKeys<V>(d: seq<(string, V)>) {
    forall i, j :: 0 <= i < j < |d| ==> d[i].0 != d[j].0
  }

  type Dict<V> = d: seq<(string, V)> | DistinctKeys(d) witness []

  /** The keys, in iteration order (`list(d.keys())`). */
  function Keys<V>(d: seq<(string, V)>): (ks: seq<string>)
    ensures |ks| == |d|
    ensures forall i :: 0 <= i < |d| ==> ks[i] == d[i].0
  {
    if d == [] then [] else Keys(d[..|d| - 1]) + [d[|d| - 1].0]
  }

  /** `d.get(k)`: the value stored under `k`, if any. */
  function Get<V>(d: seq<(string, V)>, k: string): (r: Option<V>)
    ensures r.Some? <==> k in Keys(d)
    ensures r.Some? ==> exists i :: 0 <= i < |d| && d[i] == (k, r.value)
  {
    if d == [] then None
    else if d[|d| - 1].0 == k then Some(d[|d| - 1].1)
    else Get(d[..|d| - 1], k)
  }

  /** In a dictionary, the value at entry `i` is the value `Get` finds for its key. */
  lemma {:induction false} GetAt<V>(d: Dict<V>, i: nat)
    requires i < |d|
    ensures Get(d, d[i].0) == Some(d[i].1)
  {
    if i < |d| - 1 {
      var p: Dict<V> := d[..|d| - 1];
      GetAt(p, i);
    }
  }

  /** Position of key `k`, which must be present. */
  function IndexOf<V>(d: seq<(string, V)>, k: string): (i: nat)
    requires k in Keys(d)
    ensures i < |d| && d[i].0 == k
    ensures forall j :: 0 <= j < i ==> d[j].0 != k
  {
    if d[0].0 == k then 0 else 1 + IndexOf(d[1..], k)
  }

  /** `d[k] = v`: replaces the value of an existing key in place, or appends a new entry. */
  function Put<V>(d: Dict<V>, k: string, v: V): (r: Dict<V>)
    ensures k in Keys(d) ==> |r| == |d| && Keys(r) == Keys(d)
    ensures k !in Keys(d) ==> r == d + [(k, v)]
  {
    if k in Keys(d) then
      var r: Dict<V> := d[IndexOf(d, k) := (k, v)];
      assert Keys(r) == Keys(d);
      r
    else
      d + [(k, v)]
  }

  /** After `d[k] = v`, `k` maps to `v` and every other key to what it mapped to before. */
  lemma PutGet<V>(d: Dict<V>, k: string, v: V, k': string)
    ensures Get(Put(d, k, v), k') == if k' == k then Some(v) else Get(d, k')
  {
    var r := Put(d, k, v);
    if k in Keys(d) {
      var i := IndexOf(d, k);
      if k' in Keys(r) {
        var j := IndexOf(r, k');
        GetAt(r, j);
        if k' != k { GetAt(d, j); }
      }
    } else {
      assert r[..|r| - 1] == d;
    }
  }

  /** `d.get(k', default)` after `d[k] = v`. */
  lemma PutGetOr<V>(d: Dict<V>, k: string, v: V, k': string, default: V)
    ensures Get(Put(d, k, v), k').GetOr(default) == if k' == k then v else Get(d, k').GetOr(default)
  {
    PutGet(d, k, v, k');
  }

  /** Putting a key adds exactly that key. */
  lemma PutKeys<V>(d: Dict<V>, k: string, v: V)
    ensures forall x :: x in Keys(Put(d, k, v)) <==> x == k || x in Keys(d)
  {
    var r := Put(d, k, v);
    if k !in Keys(d) {
      assert r[..|r| - 1] == d;
    }
  }
}
