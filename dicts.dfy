/** Python's insertion-ordered `dict` (and `OrderedDict`) as a sequence of
    key/value pairs. Iteration order is the sequence order. */
module Dicts {
  import opened Wrappers

  type Dict<K, V> = seq<(K, V)>

  function Keys<K, V>(d: Dict<K, V>): (ks: seq<K>)
    ensures |ks| == |d|
    ensures forall i :: 0 <= i < |d| ==> ks[i] == d[i].0
  {
    seq(|d|, i requires 0 <= i < |d| => d[i].0)
  }

  /** The position of the first entry under `k` at or after `i`, or `|d|`. */
  function FindFrom<K(==), V>(d: Dict<K, V>, k: K, i: nat): (r: nat)
    requires i <= |d|
    ensures i <= r <= |d|
    ensures r < |d| ==> d[r].0 == k
    ensures forall j :: i <= j < r ==> d[j].0 != k
    decreases |d| - i
  {
    if i == |d| then |d| else if d[i].0 == k then i else FindFrom(d, k, i + 1)
  }

  function Find<K(==), V>(d: Dict<K, V>, k: K): (r: nat)
    ensures r <= |d|
    ensures r < |d| ==> d[r].0 == k
    ensures forall j :: 0 <= j < r ==> d[j].0 != k
  {
    FindFrom(d, k, 0)
  }

  /** The first-occurrence position is the only one with these two properties. */
  lemma FindUnique<K, V>(d: Dict<K, V>, k: K, r: nat)
    requires r <= |d|
    requires r < |d| ==> d[r].0 == k
    requires forall j :: 0 <= j < r ==> d[j].0 != k
    ensures Find(d, k) == r
  {
  }

  /** `k in d`. */
  predicate HasKey<K(==), V>(d: Dict<K, V>, k: K) {
    Find(d, k) < |d|
  }

  lemma HasKeyKeys<K, V>(d: Dict<K, V>, k: K)
    ensures HasKey(d, k) <==> k in Keys(d)
  {
    if k in Keys(d) {
      var i :| 0 <= i < |d| && Keys(d)[i] == k;
    }
  }

  /** Every key occurs once, as in any Python dict. */
  predicate Distinct<K(==), V>(d: Dict<K, V>) {
    forall i, j :: 0 <= i < j < |d| ==> d[i].0 != d[j].0
  }

  /** With distinct keys, the first key does not occur again. */
  lemma NotInTail<K, V>(d: Dict<K, V>)
    requires d != [] && Distinct(d)
    ensures Distinct(d[1..]) && !HasKey(d[1..], d[0].0)
  {
    forall j | 0 <= j < |d[1..]| ensures d[1..][j].0 != d[0].0 {
      assert d[j + 1].0 != d[0].0;
    }
  }

  /** `d.get(k)`: the value stored under `k`, or None. */
  function Get<K(==), V>(d: Dict<K, V>, k: K): (r: Option<V>)
    ensures r.Some? <==> HasKey(d, k)
  {
    var i := Find(d, k);
    if i < |d| then Some(d[i].1) else None
  }

  /** `d.get(k, default)`. */
  function GetOr<K(==), V>(d: Dict<K, V>, k: K, default: V): V {
    Get(d, k).GetOr(default)
  }

  /** `d[k] = v`: an existing key keeps its position, a new key goes last. */
  function Put<K(==), V>(d: Dict<K, V>, k: K, v: V): (r: Dict<K, V>)
  {
    var i := Find(d, k);
    if i < |d| then d[i := (k, v)] else d + [(k, v)]
  }

  lemma PutFind<K, V>(d: Dict<K, V>, k: K, v: V, k': K)
    ensures k' != k && HasKey(d, k') ==> Find(Put(d, k, v), k') == Find(d, k')
    ensures k' != k && !HasKey(d, k') ==> !HasKey(Put(d, k, v), k')
    ensures k' == k ==> HasKey(Put(d, k, v), k) && Put(d, k, v)[Find(Put(d, k, v), k)] == (k, v)
  {
    var r := Put(d, k, v);
    if k' == k {
      if HasKey(d, k) {
        FindUnique(r, k, Find(d, k));
      } else {
        FindUnique(r, k, |d|);
      }
    } else if HasKey(d, k') {
      FindUnique(r, k', Find(d, k'));
    } else {
      FindUnique(r, k', |r|);
    }
  }

  /** What a put does: the new value under `k`, everything else unchanged,
      and the key order of Python's dict assignment. */
  lemma PutProperties<K, V>(d: Dict<K, V>, k: K, v: V)
    ensures Get(Put(d, k, v), k) == Some(v)
    ensures forall k' :: k' != k ==> Get(Put(d, k, v), k') == Get(d, k')
    ensures Keys(Put(d, k, v)) == if HasKey(d, k) then Keys(d) else Keys(d) + [k]
    ensures Distinct(d) ==> Distinct(Put(d, k, v))
    ensures forall j :: 0 <= j < |Put(d, k, v)| ==> Put(d, k, v)[j] == (k, v) || Put(d, k, v)[j] in d
  {
    PutFind(d, k, v, k);
    forall k' | k' != k ensures Get(Put(d, k, v), k') == Get(d, k') {
      PutFind(d, k, v, k');
    }
  }

  /** A put seen from one key. */
  lemma PutGet<K, V>(d: Dict<K, V>, k: K, v: V, k': K)
    ensures Get(Put(d, k, v), k') == if k' == k then Some(v) else Get(d, k')
  {
    PutFind(d, k, v, k');
  }

  /** A put seen from one position: the new entry or the old one. */
  lemma PutEntry<K, V>(d: Dict<K, V>, k: K, v: V, j: nat)
    requires j < |Put(d, k, v)|
    ensures Put(d, k, v)[j] == (k, v) || (j < |d| && Put(d, k, v)[j] == d[j])
  {
  }

  /** A put keeps keys distinct. */
  lemma PutDistinct<K, V>(d: Dict<K, V>, k: K, v: V)
    ensures Distinct(d) ==> Distinct(Put(d, k, v))
  {
    PutProperties(d, k, v);
  }

  /** `if k not in d: d[k] = v`. */
  function PutDefault<K(==), V>(d: Dict<K, V>, k: K, v: V): (r: Dict<K, V>)
  {
    if HasKey(d, k) then d else Put(d, k, v)
  }

  /** A `setdefault` seen from one key. */
  lemma PutDefaultGet<K, V>(d: Dict<K, V>, k: K, v: V, k': K)
    ensures Get(PutDefault(d, k, v), k') == if k' == k then Some(GetOr(d, k, v)) else Get(d, k')
  {
    PutGet(d, k, v, k');
  }

  /** What `setdefault` does: `k` keeps its value or takes `v`, and every
      other key is untouched. */
  lemma PutDefaultProperties<K, V>(d: Dict<K, V>, k: K, v: V)
    ensures Get(PutDefault(d, k, v), k) == Some(GetOr(d, k, v))
    ensures forall k' :: k' != k ==> Get(PutDefault(d, k, v), k') == Get(d, k')
    ensures Distinct(d) ==> Distinct(PutDefault(d, k, v))
  {
    PutProperties(d, k, v);
  }

  /** `d.update(e)`: the entries of `e` are put one after another. */
  function Update<K(==), V>(d: Dict<K, V>, e: Dict<K, V>): (r: Dict<K, V>)
    decreases |e|
  {
    if e == [] then d else Update(Put(d, e[0].0, e[0].1), e[1..])
  }

  /** `d.pop(k, None)` without its result. */
  function Remove<K(==), V>(d: Dict<K, V>, k: K): (r: Dict<K, V>)
  {
    var i := Find(d, k);
    if i < |d| then d[..i] + d[i + 1..] else d
  }

  /** After an update, a key of `e` has its value from `e`; any other key
      keeps its value from `d`. */
  lemma {:induction false} UpdateGet<K, V>(d: Dict<K, V>, e: Dict<K, V>, k: K)
    requires Distinct(e)
    ensures Get(Update(d, e), k) == if HasKey(e, k) then Get(e, k) else Get(d, k)
    decreases |e|
  {
    if e != [] {
      var d' := Put(d, e[0].0, e[0].1);
      PutProperties(d, e[0].0, e[0].1);
      UpdateGet(d', e[1..], k);
      if k == e[0].0 {
        FindUnique(e, k, 0);
        assert !HasKey(e[1..], k);
      } else {
        FindUnique(e, k, Find(e[1..], k) + 1);
      }
    }
  }

  /** A key is in a non-empty dict when it is the first key or in the rest. */
  lemma HasKeyCons<K, V>(e: Dict<K, V>, k: K)
    requires e != []
    ensures HasKey(e, k) <==> e[0].0 == k || HasKey(e[1..], k)
  {
    if e[0].0 == k {
      FindUnique(e, k, 0);
    } else {
      FindUnique(e, k, Find(e[1..], k) + 1);
    }
  }

  /** Past a different first key, a lookup is a lookup in the rest. */
  lemma GetTail<K, V>(e: Dict<K, V>, k: K)
    requires e != [] && e[0].0 != k
    ensures HasKey(e, k) == HasKey(e[1..], k) && Get(e, k) == Get(e[1..], k)
  {
    FindUnique(e, k, Find(e[1..], k) + 1);
  }

  /** The keys after a put are the old keys and the key put. */
  lemma PutHasKey<K, V>(d: Dict<K, V>, k: K, v: V, k': K)
    ensures HasKey(Put(d, k, v), k') <==> HasKey(d, k') || k' == k
  {
    PutFind(d, k, v, k');
  }

  /** After an update, the keys are those of `d` or of `e`. */
  lemma {:induction false} UpdateHasKey<K, V>(d: Dict<K, V>, e: Dict<K, V>, k: K)
    ensures HasKey(Update(d, e), k) <==> HasKey(d, k) || HasKey(e, k)
    decreases |e|
  {
    if e != [] {
      var d' := Put(d, e[0].0, e[0].1);
      PutHasKey(d, e[0].0, e[0].1, k);
      UpdateHasKey(d', e[1..], k);
      HasKeyCons(e, k);
    }
  }

  /** Updating a dict with distinct keys by one with distinct keys keeps
      them distinct. */
  lemma {:induction false} UpdateDistinct<K, V>(d: Dict<K, V>, e: Dict<K, V>)
    requires Distinct(d)
    ensures Distinct(Update(d, e))
    decreases |e|
  {
    if e != [] {
      PutProperties(d, e[0].0, e[0].1);
      UpdateDistinct(Put(d, e[0].0, e[0].1), e[1..]);
    }
  }

  /** Removing `k` drops it and leaves every other key's value. */
  lemma RemoveProperties<K, V>(d: Dict<K, V>, k: K)
    requires Distinct(d)
    ensures !HasKey(Remove(d, k), k)
    ensures forall k' :: k' != k ==> Get(Remove(d, k), k') == Get(d, k')
    ensures Distinct(Remove(d, k))
  {
    var r := Remove(d, k);
    var i := Find(d, k);
    if i < |d| {
      assert forall j :: 0 <= j < |r| ==> r[j] == if j < i then d[j] else d[j + 1];
      FindUnique(r, k, |r|);
      forall k' | k' != k ensures Get(r, k') == Get(d, k') {
        var f := Find(d, k');
        if f < i {
          FindUnique(r, k', f);
        } else if f < |d| {
          FindUnique(r, k', f - 1);
        } else {
          FindUnique(r, k', |r|);
        }
      }
    }
  }

  /** `for e in ds: d.update(e)`. */
  function UpdateAll<K(==), V>(d: Dict<K, V>, ds: seq<Dict<K, V>>): (r: Dict<K, V>)
    decreases |ds|
  {
    if ds == [] then d else UpdateAll(Update(d, ds[0]), ds[1..])
  }

  /** After a series of updates a key is present iff `d` or one of the
      updates has it. */
  lemma {:induction false} UpdateAllHasKey<K, V>(d: Dict<K, V>, ds: seq<Dict<K, V>>, k: K)
    ensures HasKey(UpdateAll(d, ds), k) <==> HasKey(d, k) || exists i :: 0 <= i < |ds| && HasKey(ds[i], k)
    decreases |ds|
  {
    if ds != [] {
      UpdateHasKey(d, ds[0], k);
      UpdateAllHasKey(Update(d, ds[0]), ds[1..], k);
      if exists i :: 0 <= i < |ds| && HasKey(ds[i], k) {
        var i :| 0 <= i < |ds| && HasKey(ds[i], k);
        if i > 0 {
          assert ds[1..][i - 1] == ds[i];
        }
      }
    }
  }

  /** A key's value comes from the last update that has it. */
  lemma {:induction false} UpdateAllLast<K, V>(d: Dict<K, V>, ds: seq<Dict<K, V>>, k: K, i: nat)
    requires forall j :: 0 <= j < |ds| ==> Distinct(ds[j])
    requires i < |ds| && HasKey(ds[i], k)
    requires forall j :: i < j < |ds| ==> !HasKey(ds[j], k)
    ensures Get(UpdateAll(d, ds), k) == Get(ds[i], k)
    decreases |ds|
  {
    var d' := Update(d, ds[0]);
    if i > 0 {
      forall j | i - 1 < j < |ds[1..]| ensures !HasKey(ds[1..][j], k) {
        assert ds[1..][j] == ds[j + 1];
      }
      UpdateAllLast(d', ds[1..], k, i - 1);
    } else {
      UpdateGet(d, ds[0], k);
      forall j | 0 <= j < |ds[1..]| ensures !HasKey(ds[1..][j], k) {
        assert ds[1..][j] == ds[j + 1];
      }
      UpdateAllNone(d', ds[1..], k);
    }
  }

  /** A key no update has keeps its value from `d`. */
  lemma {:induction false} UpdateAllNone<K, V>(d: Dict<K, V>, ds: seq<Dict<K, V>>, k: K)
    requires forall j :: 0 <= j < |ds| ==> Distinct(ds[j])
    requires forall j :: 0 <= j < |ds| ==> !HasKey(ds[j], k)
    ensures Get(UpdateAll(d, ds), k) == Get(d, k)
    decreases |ds|
  {
    if ds != [] {
      UpdateGet(d, ds[0], k);
      UpdateAllNone(Update(d, ds[0]), ds[1..], k);
    }
  }
}
