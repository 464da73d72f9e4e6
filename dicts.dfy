/**
 * Python's `dict`: a finite map that iterates its keys in the order in which
 * they were first inserted. Overwriting a key keeps its place; deleting a key
 * removes it from the order.
 */
module Dicts {
  import opened Wrappers

  /** The elements of `s` that satisfy `keep`, in their original order. */
  function Filter<T(!new)>(s: seq<T>, keep: T -> bool): (r: seq<T>)
    ensures |r| <= |s|
    ensures forall x :: x in r <==> x in s && keep(x)
    decreases |s|
  {
    if s == [] then []
    else if keep(s[0]) then [s[0]] + Filter(s[1..], keep)
    else Filter(s[1..], keep)
  }

  ghost predicate Distinct<T>(s: seq<T>) {
    forall i, j :: 0 <= i < j < |s| ==> s[i] != s[j]
  }

  /** Filtering never introduces a repetition. */
  lemma {:induction false} FilterDistinct<T(!new)>(s: seq<T>, keep: T -> bool)
    requires Distinct(s)
    ensures Distinct(Filter(s, keep))
    decreases |s|
  {
    if s != [] {
      assert Distinct(s[1..]) by {
        forall i, j | 0 <= i < j < |s[1..]| ensures s[1..][i] != s[1..][j] {
          assert s[1..][i] == s[i + 1] && s[1..][j] == s[j + 1];
        }
      }
      FilterDistinct(s[1..], keep);
      if keep(s[0]) {
        var r := Filter(s[1..], keep);
        assert s[0] !in r by {
          forall k | 0 <= k < |s[1..]| ensures s[1..][k] != s[0] {
            assert s[1..][k] == s[k + 1];
          }
        }
        assert Filter(s, keep) == [s[0]] + r;
      }
    }
  }

  datatype Dict<K(==,!new), V> = Dict(keys: seq<K>, m: map<K, V>)
  {
    /** `keys` lists every key of `m`, each exactly once. */
    ghost predicate Valid() {
      Distinct(keys) && forall k :: k in m <==> k in keys
    }

    /** `d.get(k)` */
    function Get(k: K): (r: Option<V>)
      ensures r.Some? <==> k in m
      ensures r.Some? ==> r.value == m[k]
    {
      if k in m then Some(m[k]) else None
    }

    /** `d[k] = v`: a new key goes to the end of the order, an existing key keeps its place. */
    function Put(k: K, v: V): (r: Dict<K, V>)
      requires Valid()
      ensures r.Valid()
      ensures r.m == m[k := v]
      ensures r.keys == if k in m then keys else keys + [k]
    {
      Dict(if k in m then keys else keys + [k], m[k := v])
    }

    /** `del d[k]` */
    function Remove(k: K): (r: Dict<K, V>)
      requires Valid()
      ensures r.Valid()
      ensures r.m == m - {k}
      ensures r.keys == Filter(keys, x => x != k)
    {
      FilterDistinct(keys, x => x != k);
      Dict(Filter(keys, x => x != k), m - {k})
    }

    /** `{k: v for k, v in d.items() if keep(v)}` */
    function Where(keep: V -> bool): (r: Dict<K, V>)
      requires Valid()
      ensures r.Valid()
      ensures forall k :: k in r.m <==> k in m && keep(m[k])
      ensures forall k :: k in r.m ==> r.m[k] == m[k]
      ensures r.keys == Filter(keys, k => k in m && keep(m[k]))
    {
      FilterDistinct(keys, k => k in m && keep(m[k]));
      Dict(Filter(keys, k => k in m && keep(m[k])), map k | k in m && keep(m[k]) :: m[k])
    }

    /** `list(d.items())`: the entries in key order. */
    function Items(): (r: seq<(K, V)>)
      requires Valid()
      ensures |r| == |keys|
      ensures forall i :: 0 <= i < |keys| ==> r[i] == (keys[i], m[keys[i]])
    {
      seq(|keys|, i requires 0 <= i < |keys| => (keys[i], m[keys[i]]))
    }

    /** `list(d.values())`: the values in key order. */
    function Values(): (r: seq<V>)
      requires Valid()
      ensures |r| == |keys|
      ensures forall i :: 0 <= i < |keys| ==> r[i] == m[keys[i]]
    {
      seq(|keys|, i requires 0 <= i < |keys| => m[keys[i]])
    }
  }

  /** `for k, v in entries: d[k] = v` */
  function PutAll<K(==,!new), V>(d: Dict<K, V>, entries: seq<(K, V)>): (r: Dict<K, V>)
    requires d.Valid()
    ensures r.Valid()
    decreases |entries|
  {
    if entries == [] then d else PutAll(d.Put(entries[0].0, entries[0].1), entries[1..])
  }

  /** A key that no entry writes keeps its value, or its absence. */
  lemma {:induction false} PutAllUntouched<K(!new), V>(d: Dict<K, V>, entries: seq<(K, V)>, k: K)
    requires d.Valid()
    requires forall i :: 0 <= i < |entries| ==> entries[i].0 != k
    ensures k in PutAll(d, entries).m <==> k in d.m
    ensures k in d.m ==> PutAll(d, entries).m[k] == d.m[k]
    decreases |entries|
  {
    if entries != [] {
      assert entries[0].0 != k;
      assert forall i :: 0 <= i < |entries[1..]| ==> entries[1..][i] == entries[i + 1];
      PutAllUntouched(d.Put(entries[0].0, entries[0].1), entries[1..], k);
    }
  }

  /** A written key holds the value of the last entry that writes it: last writer wins. */
  lemma {:induction false} PutAllLast<K(!new), V>(d: Dict<K, V>, entries: seq<(K, V)>, i: int)
    requires d.Valid() && 0 <= i < |entries|
    requires forall j :: i < j < |entries| ==> entries[j].0 != entries[i].0
    ensures entries[i].0 in PutAll(d, entries).m && PutAll(d, entries).m[entries[i].0] == entries[i].1
    decreases |entries|
  {
    var next := d.Put(entries[0].0, entries[0].1);
    assert forall k :: 0 <= k < |entries[1..]| ==> entries[1..][k] == entries[k + 1];
    if i > 0 {
      PutAllLast(next, entries[1..], i - 1);
    } else {
      PutAllUntouched(next, entries[1..], entries[0].0);
    }
  }

  function Empty<K(==,!new), V>(): (d: Dict<K, V>)
    ensures d.Valid() && d.keys == [] && d.m == map[]
  {
    Dict([], map[])
  }
}
