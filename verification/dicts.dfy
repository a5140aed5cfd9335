/** A Python dictionary with string keys, as an ordered list of entries.
    Python 2 dictionaries iterate in hash order, and several operations of
    the system depend on that order through side effects; the model fixes
    one order, insertion order. Lookups read the first entry with the key; `Put` (the `d[k] = v`
    statement) replaces that entry in place or appends a new one, so a
    dictionary built with `Put` never holds a key twice. */
module Dicts {

  type Dict<V> = seq<(string, V)>

  /** The keys in iteration order. */
  function Keys<V>(d: Dict<V>): (ks: seq<string>)
    ensures |ks| == |d|
    ensures forall i :: 0 <= i < |d| ==> ks[i] == d[i].0
  {
    seq(|d|, i requires 0 <= i < |d| => d[i].0)
  }

  /** No key occurs twice. */
  predicate Distinct(ks: seq<string>)
  {
    forall i, j :: 0 <= i < j < |ks| ==> ks[i] != ks[j]
  }

  /** Position of the first entry whose key is `k`, or -1 when there is none. */
  function IndexOf<V>(d: Dict<V>, k: string): (i: int)
    ensures -1 <= i < |d|
    ensures i >= 0 ==> d[i].0 == k && forall j :: 0 <= j < i ==> d[j].0 != k
    ensures i < 0 <==> k !in Keys(d)
  {
    if d == [] then -1
    else if d[0].0 == k then 0
    else
      var i := IndexOf(d[1..], k);
      if i < 0 then -1 else i + 1
  }

  /** `d[k]` for a key that is present. */
  function Get<V>(d: Dict<V>, k: string): V
    requires k in Keys(d)
  {
    d[IndexOf(d, k)].1
  }

  /** `d[k] = v`: overwrite the entry of `k` in place, or append one. */
  function Put<V>(d: Dict<V>, k: string, v: V): (r: Dict<V>)
    ensures k in Keys(r) && Get(r, k) == v
    ensures Keys(r) == if k in Keys(d) then Keys(d) else Keys(d) + [k]
    ensures forall k' :: k' != k && k' in Keys(d) ==> Get(r, k') == Get(d, k')
  {
    var i := IndexOf(d, k);
    var r := if i >= 0 then d[i := (k, v)] else d + [(k, v)];
    PutFacts(d, k, v, i, r);
    r
  }

  /** `d[k] = v` entry by entry: every entry but the one of `k` is kept in place. */
  lemma PutEntries<V>(d: Dict<V>, k: string, v: V)
    ensures |Put(d, k, v)| == if k in Keys(d) then |d| else |d| + 1
    ensures forall j :: 0 <= j < |Put(d, k, v)| ==> Put(d, k, v)[j] == if j < |d| && j != IndexOf(d, k) then d[j] else (k, v)
  {
  }

  /** `d[k] = v` for a key `d` does not hold appends an entry. */
  lemma PutNew<V>(d: Dict<V>, k: string, v: V)
    requires k !in Keys(d)
    ensures Put(d, k, v) == d + [(k, v)]
  {
  }

  /** `d[k] = v` for a key first held by entry `i` replaces that entry. */
  lemma PutExisting<V>(d: Dict<V>, k: string, v: V, i: nat)
    requires i < |d| && d[i].0 == k
    requires forall j :: 0 <= j < i ==> d[j].0 != k
    ensures Put(d, k, v) == d[i := (k, v)]
  {
    FirstIndex(d, k, i);
  }

  /** In a dictionary without repeated keys, the entry of `d[i].0` is entry `i`. */
  lemma DistinctIndex<V>(d: Dict<V>, i: nat)
    requires Distinct(Keys(d)) && i < |d|
    ensures IndexOf(d, d[i].0) == i && Get(d, d[i].0) == d[i].1
  {
    forall j | 0 <= j < i
      ensures d[j].0 != d[i].0
    {
      assert Keys(d)[j] == d[j].0 && Keys(d)[i] == d[i].0;
    }
    FirstIndex(d, d[i].0, i);
  }

  /** In a dictionary without repeated keys, no entry before `i` has the key of entry `i`. */
  lemma DistinctFresh<V>(d: Dict<V>, i: nat)
    requires Distinct(Keys(d)) && i < |d|
    ensures d[i].0 !in Keys(d[..i])
  {
    forall j | 0 <= j < i
      ensures Keys(d[..i])[j] != d[i].0
    {
      assert Keys(d)[j] == d[j].0 && Keys(d)[i] == d[i].0;
    }
  }

  /** A prefix one longer is the shorter prefix and one more element. */
  lemma PrefixSnoc<T>(s: seq<T>, n: nat)
    requires 0 < n <= |s|
    ensures s[..n] == s[..n - 1] + [s[n - 1]]
  {
  }

  /** The keys of one more entry are the keys so far and its key. */
  lemma KeysSnoc<V>(d: Dict<V>, n: nat)
    requires 0 < n <= |d|
    ensures Keys(d[..n]) == Keys(d[..n - 1]) + [d[n - 1].0]
  {
    assert d[..n] == d[..n - 1] + [d[n - 1]];
  }

  /** The first entry with key `k` is the one `IndexOf` finds. */
  lemma {:induction false} FirstIndex<V>(d: Dict<V>, k: string, i: nat)
    requires i < |d| && d[i].0 == k
    requires forall j :: 0 <= j < i ==> d[j].0 != k
    ensures IndexOf(d, k) == i
  {
    if i > 0 {
      FirstIndex(d[1..], k, i - 1);
    }
  }

  /** A key of a dict keeps its value in every dict the first one is a prefix of. */
  lemma GetPrefix<V>(d: Dict<V>, e: Dict<V>, k: string)
    requires d <= e && k in Keys(d)
    ensures k in Keys(e) && Get(e, k) == Get(d, k)
  {
    var i := IndexOf(d, k);
    assert e[i] == d[i];
    FirstIndex(e, k, i);
  }

  lemma PutFacts<V>(d: Dict<V>, k: string, v: V, i: int, r: Dict<V>)
    requires i == IndexOf(d, k)
    requires r == if i >= 0 then d[i := (k, v)] else d + [(k, v)]
    ensures k in Keys(r) && IndexOf(r, k) == (if i >= 0 then i else |d|)
    ensures Keys(r) == if k in Keys(d) then Keys(d) else Keys(d) + [k]
    ensures forall k' :: k' != k && k' in Keys(d) ==> IndexOf(r, k') == IndexOf(d, k')
  {
    assert Keys(r) == if k in Keys(d) then Keys(d) else Keys(d) + [k];
    assert r[if i >= 0 then i else |d|].0 == k;
  }

  /** The entries whose key is not `k`, in order (the dictionary with `k` deleted). */
  function Remove<V>(d: Dict<V>, k: string): (r: Dict<V>)
    ensures k !in Keys(r)
    ensures forall k' :: k' != k ==> (k' in Keys(r) <==> k' in Keys(d))
  {
    if d == [] then []
    else
      assert Keys(d) == [d[0].0] + Keys(d[1..]);
      var rest := Remove(d[1..], k);
      if d[0].0 == k then rest
      else
        assert Keys([d[0]] + rest) == [d[0].0] + Keys(rest);
        [d[0]] + rest
  }
}
