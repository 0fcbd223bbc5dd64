/**
 * JavaScript's insertion-ordered dictionaries: a `Map`, and a plain object used
 * as a dictionary through its own enumerable string keys.  `set` on a present
 * key replaces the value in place, `set` on a new key appends it, `delete`
 * removes it and is a no-op on an absent key, `size` counts the entries and the
 * iteration order (`values()`, `Object.values`) is the order of `keys`.
 */
module OrderedMap {
  import opened Wrappers

  datatype OMap<V> = OMap(keys: seq<string>, entries: map<string, V>)

  ghost predicate Distinct(s: seq<string>) {
    forall i, j :: 0 <= i < j < |s| ==> s[i] != s[j]
  }

  /** `keys` lists each key of `entries` exactly once. */
  ghost predicate WellFormed<V>(m: OMap<V>) {
    && Distinct(m.keys)
    && (forall k :: k in m.entries <==> k in m.keys)
  }

  type Dict<V> = m: OMap<V> | WellFormed(m) witness OMap([], map[])

  function Empty<V>(): (r: Dict<V>)
    ensures r.keys == [] && r.entries == map[]
  {
    OMap([], map[])
  }

  /** `m.has(k)` */
  predicate Has<V>(m: Dict<V>, k: string) {
    k in m.entries
  }

  /** `m.get(k)`, with `undefined` as None. */
  function Get<V>(m: Dict<V>, k: string): Option<V> {
    if k in m.entries then Some(m.entries[k]) else None
  }

  /** `m.set(k, v)` */
  function Set<V>(m: Dict<V>, k: string, v: V): (r: Dict<V>)
    ensures Get(r, k) == Some(v)
    ensures forall k' :: k' != k ==> Get(r, k') == Get(m, k')
    ensures r.keys == if Has(m, k) then m.keys else m.keys + [k]
  {
    if k in m.entries then OMap(m.keys, m.entries[k := v])
    else OMap(m.keys + [k], m.entries[k := v])
  }

  /** `s` without the occurrences of `k`, order kept. */
  function Without(s: seq<string>, k: string): (r: seq<string>)
    ensures forall x :: x in r <==> x in s && x != k
    ensures |r| <= |s|
  {
    if s == [] then []
    else if s[0] == k then Without(s[1..], k)
    else [s[0]] + Without(s[1..], k)
  }

  lemma {:induction false} WithoutDistinct(s: seq<string>, k: string)
    requires Distinct(s)
    ensures Distinct(Without(s, k))
    ensures k in s ==> |Without(s, k)| == |s| - 1
    ensures k !in s ==> Without(s, k) == s
  {
    if s != [] {
      WithoutDistinct(s[1..], k);
      var t := Without(s[1..], k);
      if s[0] != k {
        assert forall x :: x in t ==> x in s[1..];
        assert Without(s, k) == [s[0]] + t;
        forall i, j | 0 <= i < j < |[s[0]] + t|
          ensures ([s[0]] + t)[i] != ([s[0]] + t)[j]
        {
          if i == 0 {
            assert ([s[0]] + t)[j] == t[j - 1];
            assert t[j - 1] in s[1..];
          }
        }
      } else {
        assert k !in s[1..];
      }
    }
  }

  /** `m.delete(k)`; removing an absent key leaves `m` as it was. */
  function Delete<V>(m: Dict<V>, k: string): (r: Dict<V>)
    ensures Get(r, k) == None
    ensures forall k' :: k' != k ==> Get(r, k') == Get(m, k')
    ensures r.keys == Without(m.keys, k)
    ensures !Has(m, k) ==> r == m
  {
    WithoutDistinct(m.keys, k);
    assert forall x :: x in m.entries - {k} <==> x in Without(m.keys, k);
    assert !Has(m, k) ==> m.entries - {k} == m.entries;
    OMap(Without(m.keys, k), m.entries - {k})
  }

  /** `m.size` */
  function Size<V>(m: Dict<V>): nat {
    |m.keys|
  }

  /** `Array.from(m.values())`, in iteration order. */
  function Values<V>(m: Dict<V>): (vs: seq<V>)
    ensures |vs| == |m.keys|
    ensures forall i :: 0 <= i < |m.keys| ==> vs[i] == m.entries[m.keys[i]]
  {
    seq(|m.keys|, i requires 0 <= i < |m.keys| => m.entries[m.keys[i]])
  }

  lemma {:induction false} DistinctCardinality(s: seq<string>)
    requires Distinct(s)
    ensures |set x | x in s| == |s|
  {
    if s != [] {
      DistinctCardinality(s[1..]);
      assert (set x | x in s) == {s[0]} + (set x | x in s[1..]);
      assert s[0] !in (set x | x in s[1..]);
    }
  }

  /** The size of a dictionary is the number of distinct keys it holds. */
  lemma SizeIsEntryCount<V>(m: Dict<V>)
    ensures Size(m) == |m.entries|
  {
    DistinctCardinality(m.keys);
    assert m.entries.Keys == set x | x in m.keys;
  }

  /** Deleting a key just set in a dictionary that lacked it gives back the
      dictionary, iteration order included. */
  lemma SetThenDelete<V>(m: Dict<V>, k: string, v: V)
    requires !Has(m, k)
    ensures Delete(Set(m, k, v), k) == m
  {
    WithoutAppended(m.keys, k);
    assert (m.entries[k := v]) - {k} == m.entries;
  }

  lemma {:induction false} WithoutAppended(s: seq<string>, k: string)
    requires k !in s
    ensures Without(s + [k], k) == s
  {
    if s != [] {
      assert (s + [k])[1..] == s[1..] + [k];
      WithoutAppended(s[1..], k);
    }
  }

  /** A repeated `delete` is a no-op. */
  lemma DeleteIdempotent<V>(m: Dict<V>, k: string)
    ensures Delete(Delete(m, k), k) == Delete(m, k)
  {
  }

  /** Setting a key to the value it already holds changes nothing. */
  lemma SetSame<V>(m: Dict<V>, k: string)
    requires Has(m, k)
    ensures Set(m, k, m.entries[k]) == m
  {
    assert m.entries[k := m.entries[k]] == m.entries;
  }

  /** A second `set` of the same key overrides the first. */
  lemma SetTwice<V>(m: Dict<V>, k: string, a: V, b: V)
    ensures Set(Set(m, k, a), k, b) == Set(m, k, b)
  {
    assert m.entries[k := a][k := b] == m.entries[k := b];
  }

  /** The position of a key in the iteration order. */
  function IndexOf<V>(m: Dict<V>, k: string): (i: nat)
    requires Has(m, k)
    ensures i < |m.keys| && m.keys[i] == k
  {
    assert k in m.keys;
    var i :| 0 <= i < |m.keys| && m.keys[i] == k;
    i
  }
}
