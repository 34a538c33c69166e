// Python dictionaries as insertion-ordered association lists: `d[k] = v`
// keeps the position of an existing key and appends a new one, and
// iteration (`keys()`, `items()`) follows insertion order.

module PyDict {
  import opened PyStr

  type Dict<K, V> = seq<(K, V)>

  function Keys<K, V>(d: Dict<K, V>): (r: seq<K>)
    ensures |r| == |d|
    ensures forall i :: 0 <= i < |d| ==> r[i] == d[i].0
  {
    if |d| == 0 then [] else [d[0].0] + Keys(d[1..])
  }

  function Values<K, V>(d: Dict<K, V>): (r: seq<V>)
    ensures |r| == |d|
    ensures forall i :: 0 <= i < |d| ==> r[i] == d[i].1
  {
    if |d| == 0 then [] else [d[0].1] + Values(d[1..])
  }

  predicate HasKey<K(==), V>(d: Dict<K, V>, k: K)
  {
    exists i :: 0 <= i < |d| && d[i].0 == k
  }

  /** No key occurs twice, as in every Python dict. */
  predicate UniqueKeys<K(==), V>(d: Dict<K, V>)
  {
    forall i, j :: 0 <= i < j < |d| ==> d[i].0 != d[j].0
  }

  /** `d.get(k)`: the value of the first entry with key `k`. */
  function Get<K(==), V>(d: Dict<K, V>, k: K): (r: Option<V>)
    ensures r.None? <==> !HasKey(d, k)
  {
    if |d| == 0 then None
    else if d[0].0 == k then Some(d[0].1)
    else Get(d[1..], k)
  }

  /** `d.get(k, default)`. */
  function GetOr<K(==), V>(d: Dict<K, V>, k: K, default: V): V
  {
    match Get(d, k)
    case Some(v) => v
    case None => default
  }

  /** The position of key `k` in `d`. */
  function IndexOf<K(==), V>(d: Dict<K, V>, k: K): (i: nat)
    requires HasKey(d, k)
    ensures i < |d| && d[i].0 == k
    ensures forall j :: 0 <= j < i ==> d[j].0 != k
  {
    if d[0].0 == k then 0 else 1 + IndexOf(d[1..], k)
  }

  lemma GetAtIndex<K, V>(d: Dict<K, V>, k: K)
    requires HasKey(d, k)
    ensures Get(d, k) == Some(d[IndexOf(d, k)].1)
  {
    if d[0].0 != k {
      GetAtIndex(d[1..], k);
    }
  }

  /** `d[k] = v`: overwrite in place when present, else append. */
  function Put<K(==), V>(d: Dict<K, V>, k: K, v: V): (r: Dict<K, V>)
    ensures HasKey(d, k) ==> |r| == |d| && Keys(r) == Keys(d)
    ensures !HasKey(d, k) ==> r == d + [(k, v)]
  {
    if HasKey(d, k) then d[IndexOf(d, k) := (k, v)] else d + [(k, v)]
  }

  lemma {:induction false} PutGet<K, V>(d: Dict<K, V>, k: K, v: V, k2: K)
    ensures Get(Put(d, k, v), k2) == if k2 == k then Some(v) else Get(d, k2)
    decreases |d|
  {
    var r := Put(d, k, v);
    if HasKey(d, k) {
      var i := IndexOf(d, k);
      if i == 0 {
        assert r[1..] == d[1..];
      } else {
        assert r[1..] == Put(d[1..], k, v);
        PutGet(d[1..], k, v, k2);
      }
    } else {
      if |d| == 0 {
      } else {
        assert r[1..] == d[1..] + [(k, v)];
        assert r[1..] == Put(d[1..], k, v);
        PutGet(d[1..], k, v, k2);
      }
    }
  }

  lemma PutUnique<K, V>(d: Dict<K, V>, k: K, v: V)
    requires UniqueKeys(d)
    ensures UniqueKeys(Put(d, k, v))
  {
    if !HasKey(d, k) {
      var r := Put(d, k, v);
      forall i, j | 0 <= i < j < |r|
        ensures r[i].0 != r[j].0
      {
        if j == |d| {
          assert Keys(d)[i] == d[i].0;
        }
      }
    }
  }

  /** `k in d` after `d[k] = v`, and the other keys are unchanged. */
  lemma PutKeys<K, V>(d: Dict<K, V>, k: K, v: V, k2: K)
    ensures HasKey(Put(d, k, v), k2) <==> k2 == k || HasKey(d, k2)
  {
    PutGet(d, k, v, k2);
  }

  /** Entries whose keys differ from `k` can be skipped when looking `k` up. */
  lemma {:induction false} GetSkip<K, V>(d: Dict<K, V>, k: K, n: nat)
    requires n <= |d|
    requires forall j :: 0 <= j < n ==> d[j].0 != k
    ensures Get(d, k) == Get(d[n..], k)
  {
    if n > 0 {
      assert d[1..][n - 1..] == d[n..];
      GetSkip(d[1..], k, n - 1);
    }
  }
  /** Looking up a key in two dicts laid end to end: the first one that holds it answers. */
  lemma {:induction false} GetConcat<K, V>(d1: Dict<K, V>, d2: Dict<K, V>, k: K)
    ensures Get(d1 + d2, k) == if HasKey(d1, k) then Get(d1, k) else Get(d2, k)
  {
    if |d1| > 0 {
      assert (d1 + d2)[1..] == d1[1..] + d2;
      GetConcat(d1[1..], d2, k);
      if d1[0].0 != k && HasKey(d1, k) {
        var i :| 0 <= i < |d1| && d1[i].0 == k;
        assert d1[1..][i - 1].0 == k;
      }
    } else {
      assert d1 + d2 == d2;
    }
  }

  /** The entry at `i` answers for its key when no earlier entry has that key. */
  lemma GetFound<K, V>(d: Dict<K, V>, i: nat)
    requires i < |d|
    requires forall j :: 0 <= j < i ==> d[j].0 != d[i].0
    ensures Get(d, d[i].0) == Some(d[i].1)
  {
    GetSkip(d, d[i].0, i);
  }

  /** No key occurs twice in a list of keys. */
  predicate Distinct<K(==)>(ks: seq<K>)
  {
    forall i, j :: 0 <= i < j < |ks| ==> ks[i] != ks[j]
  }

  /** The dict literal `{ks[0]: vs[0], ks[1]: vs[1], ...}`. */
  function Zip<K, V>(ks: seq<K>, vs: seq<V>): (r: Dict<K, V>)
    requires |ks| == |vs|
    ensures |r| == |ks|
    ensures forall i :: 0 <= i < |r| ==> r[i] == (ks[i], vs[i])
  {
    if |ks| == 0 then [] else [(ks[0], vs[0])] + Zip(ks[1..], vs[1..])
  }

  /** A dict literal with distinct keys answers each of its keys with the value written beside it. */
  lemma ZipGet<K, V>(ks: seq<K>, vs: seq<V>, i: nat)
    requires |ks| == |vs| && Distinct(ks) && i < |ks|
    ensures Get(Zip(ks, vs), ks[i]) == Some(vs[i])
  {
    GetFound(Zip(ks, vs), i);
  }

  /** A dict literal has no key it does not list. */
  lemma ZipMissing<K, V>(ks: seq<K>, vs: seq<V>, k: K)
    requires |ks| == |vs| && k !in ks
    ensures !HasKey(Zip(ks, vs), k)
  {
  }

  /** `d.pop(k, None)`: the entry with key `k` is dropped, the others keep their order. */
  function Pop<K(==), V>(d: Dict<K, V>, k: K): (r: Dict<K, V>)
    ensures |r| <= |d|
    ensures !HasKey(d, k) ==> r == d
  {
    if |d| == 0 then []
    else if d[0].0 == k then Pop(d[1..], k)
    else [d[0]] + Pop(d[1..], k)
  }

  /** After `pop`, `k` is gone and every other key keeps its value. */
  lemma {:induction false} PopGet<K, V>(d: Dict<K, V>, k: K, k2: K)
    ensures Get(Pop(d, k), k2) == if k2 == k then None else Get(d, k2)
  {
    if |d| > 0 {
      PopGet(d[1..], k, k2);
      if d[0].0 != k {
        assert ([d[0]] + Pop(d[1..], k))[1..] == Pop(d[1..], k);
      }
    }
  }
}
