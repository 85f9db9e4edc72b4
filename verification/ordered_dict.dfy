/**
 * Python's `dict` with string keys, as the gateway uses it: an insertion-ordered table in
 * which assigning to a key that is already present replaces its value in
 * place, and assigning to a new key appends an entry at the end.
 */
module OrderedDict {
  import opened Wrappers

  type Dict<V> = seq<(string, V)>

  /** No key appears in two entries. */
  predicate DistinctKeys<V>(d: Dict<V>) {
    forall i, j :: 0 <= i < j < |d| ==> d[i].0 != d[j].0
  }

  /** The position of the entry for `k`, if any. */
  function IndexOfKey<V>(d: Dict<V>, k: string): (r: Option<nat>)
    ensures r.Some? ==> r.value < |d| && d[r.value].0 == k
    ensures r.Some? ==> forall j :: 0 <= j < r.value ==> d[j].0 != k
    ensures r.None? ==> forall j :: 0 <= j < |d| ==> d[j].0 != k
  {
    if |d| == 0 then None
    else if d[0].0 == k then Some(0)
    else match IndexOfKey(d[1..], k)
      case Some(i) => Some(i + 1)
      case None => None
  }

  /** `d.get(k)`. */
  function Get<V>(d: Dict<V>, k: string): Option<V> {
    match IndexOfKey(d, k)
    case Some(i) => Some(d[i].1)
    case None => None
  }

  /** In a table with distinct keys, the entry at position `i` is what `Get` finds for its key. */
  lemma GetAt<V>(d: Dict<V>, i: nat)
    requires DistinctKeys(d) && i < |d|
    ensures Get(d, d[i].0) == Some(d[i].1)
  {
  }

  /** The keys in insertion order. */
  function Keys<V>(d: Dict<V>): (r: seq<string>)
    ensures |r| == |d|
    ensures forall i :: 0 <= i < |d| ==> r[i] == d[i].0
  {
    seq(|d|, i requires 0 <= i < |d| => d[i].0)
  }

  /** Where a key sits depends on the keys alone, not on the values. */
  lemma SameKeysSameIndex<V>(d1: Dict<V>, d2: Dict<V>)
    requires Keys(d1) == Keys(d2)
    ensures forall k :: IndexOfKey(d1, k) == IndexOfKey(d2, k)
  {
    forall k ensures IndexOfKey(d1, k) == IndexOfKey(d2, k) {
      var a, b := IndexOfKey(d1, k), IndexOfKey(d2, k);
      assert |d1| == |Keys(d1)| == |d2|;
      if a.Some? && b.Some? {
        assert d2[a.value].0 == Keys(d1)[a.value] == d1[a.value].0;
        assert d1[b.value].0 == Keys(d2)[b.value] == d2[b.value].0;
      }
    }
  }

  /** Appending an entry for key `k` does not move any key found before it. */
  lemma {:induction false} AppendIndexOf<V>(d: Dict<V>, k: string, v: V, k': string)
    ensures IndexOfKey(d, k').Some? ==> IndexOfKey(d + [(k, v)], k') == IndexOfKey(d, k')
    ensures IndexOfKey(d, k').None? && k' == k ==> IndexOfKey(d + [(k, v)], k') == Some(|d|)
    ensures IndexOfKey(d, k').None? && k' != k ==> IndexOfKey(d + [(k, v)], k').None?
  {
    if |d| > 0 {
      assert (d + [(k, v)])[1..] == d[1..] + [(k, v)];
      AppendIndexOf(d[1..], k, v, k');
    }
  }

  /**
   * `d[k] = v`: afterwards `k` maps to `v` and every other key keeps its
   * value; an existing key keeps its position, a new key goes last.
   */
  function Insert<V>(d: Dict<V>, k: string, v: V): (r: Dict<V>)
    ensures Get(r, k) == Some(v)
    ensures forall k' :: k' != k ==> Get(r, k') == Get(d, k')
    ensures Get(d, k).Some? ==> Keys(r) == Keys(d)
    ensures Get(d, k).None? ==> Keys(r) == Keys(d) + [k]
    ensures DistinctKeys(d) ==> DistinctKeys(r)
  {
    match IndexOfKey(d, k)
    case Some(i) =>
      var r := d[i := (k, v)];
      SameKeysSameIndex(d, r);
      r
    case None =>
      var r := d + [(k, v)];
      forall k' ensures IndexOfKey(r, k') == (if k' == k then Some(|d|) else IndexOfKey(d, k')) {
        AppendIndexOf(d, k, v, k');
      }
      r
  }

  /** `dict(xs)`, or a loop doing `d[k] = v` for each pair in order, from `{}`. */
  function FromPairs<V>(xs: seq<(string, V)>): (d: Dict<V>)
    ensures DistinctKeys(d)
  {
    if xs == [] then []
    else
      var last := xs[|xs| - 1];
      Insert(FromPairs(xs[..|xs| - 1]), last.0, last.1)
  }

  /** Reference meaning of building a dict from pairs: the value of the last pair with key `k`. */
  function LastValue<V>(xs: seq<(string, V)>, k: string): (r: Option<V>)
    ensures r.None? <==> forall i :: 0 <= i < |xs| ==> xs[i].0 != k
  {
    if xs == [] then None
    else if xs[|xs| - 1].0 == k then Some(xs[|xs| - 1].1)
    else LastValue(xs[..|xs| - 1], k)
  }

  /** Later pairs overwrite earlier ones: each key ends with the value of its last pair. */
  lemma {:induction false} FromPairsGet<V>(xs: seq<(string, V)>, k: string)
    ensures Get(FromPairs(xs), k) == LastValue(xs, k)
  {
    if xs != [] {
      FromPairsGet(xs[..|xs| - 1], k);
    }
  }

  /** Without repeated keys, building a dict keeps every pair, in order. */
  lemma {:induction false} FromPairsOfDistinct<V>(xs: seq<(string, V)>)
    requires DistinctKeys(xs)
    ensures FromPairs(xs) == xs
  {
    if xs != [] {
      var init, last := xs[..|xs| - 1], xs[|xs| - 1];
      FromPairsOfDistinct(init);
      assert xs == init + [last];
      assert IndexOfKey(init, last.0).None?;
    }
  }
}
