/** Python dictionaries as the merge script uses them: a finite map together
    with the order in which its keys were first inserted, which is the order
    in which `items()`, `keys()` and `values()` visit them. */
module Dicts {

  datatype Dict<V> = Dict(keys: seq<string>, entries: map<string, V>)

  ghost predicate Distinct(ks: seq<string>) {
    forall i, j :: 0 <= i < j < |ks| ==> ks[i] != ks[j]
  }

  /** The key order lists every key of the map exactly once. */
  ghost predicate Valid<V>(d: Dict<V>) {
    && Distinct(d.keys)
    && (forall k :: k in d.entries <==> k in d.keys)
  }

  function Empty<V>(): (d: Dict<V>)
    ensures Valid(d) && d.keys == [] && d.entries == map[]
  {
    Dict([], map[])
  }

  /** `d[k] = v`: an existing key keeps its place, a new key goes last. */
  function Put<V>(d: Dict<V>, k: string, v: V): (r: Dict<V>)
    requires Valid(d)
    ensures Valid(r)
    ensures r.entries == d.entries[k := v]
    ensures d.keys <= r.keys
    ensures k in d.entries ==> r.keys == d.keys
    ensures k !in d.entries ==> r.keys == d.keys + [k]
  {
    if k in d.entries then Dict(d.keys, d.entries[k := v])
    else Dict(d.keys + [k], d.entries[k := v])
  }

  /** `len(d)`: a valid dict has as many entries as its key order has keys. */
  lemma {:induction false} LenIsKeyCount<V>(d: Dict<V>)
    requires Valid(d)
    ensures |d.entries| == |d.keys|
  {
    DistinctCard(d.keys);
    assert d.entries.Keys == set k | k in d.keys;
  }

  lemma {:induction false} DistinctCard(ks: seq<string>)
    requires Distinct(ks)
    ensures |set k | k in ks| == |ks|
  {
    if ks != [] {
      var last := ks[|ks| - 1];
      var init := ks[..|ks| - 1];
      DistinctCard(init);
      assert (set k | k in ks) == (set k | k in init) + {last};
      assert last !in init;
    }
  }

  /** The loop `for k, v in src.items(): if k not in dest: dest[k] = v`,
      over the keys `ks` of `src` in iteration order. */
  function MergeKeys<V>(dest: Dict<V>, ks: seq<string>, src: map<string, V>): (r: Dict<V>)
    requires Valid(dest)
    requires forall k :: k in ks ==> k in src
    ensures Valid(r)
    ensures dest.keys <= r.keys
    decreases |ks|
  {
    if ks == [] then dest
    else
      var k := ks[0];
      var next := if k in dest.entries then dest else Put(dest, k, src[k]);
      MergeKeys(next, ks[1..], src)
  }

  /** The loop adds exactly the keys of `ks`. */
  lemma {:induction false} MergeKeysKeys<V>(dest: Dict<V>, ks: seq<string>, src: map<string, V>)
    requires Valid(dest)
    requires forall k :: k in ks ==> k in src
    ensures forall k :: k in MergeKeys(dest, ks, src).entries <==> k in dest.entries || k in ks
    decreases |ks|
  {
    if ks != [] {
      var k := ks[0];
      var next := if k in dest.entries then dest else Put(dest, k, src[k]);
      assert next.entries.Keys == dest.entries.Keys + {k};
      MergeKeysKeys(next, ks[1..], src);
      assert forall j :: j in ks <==> j == k || j in ks[1..];
    }
  }

  /** The loop keeps every value already in `dest`. */
  lemma {:induction false} MergeKeysKeeps<V>(dest: Dict<V>, ks: seq<string>, src: map<string, V>)
    requires Valid(dest)
    requires forall k :: k in ks ==> k in src
    ensures forall k :: k in dest.entries ==>
      k in MergeKeys(dest, ks, src).entries && MergeKeys(dest, ks, src).entries[k] == dest.entries[k]
    decreases |ks|
  {
    if ks != [] {
      var k := ks[0];
      var next := if k in dest.entries then dest else Put(dest, k, src[k]);
      assert forall j :: j in dest.entries ==> j in next.entries && next.entries[j] == dest.entries[j];
      MergeKeysKeeps(next, ks[1..], src);
      assert MergeKeys(dest, ks, src) == MergeKeys(next, ks[1..], src);
    }
  }

  /** Every key of `ks` that `dest` lacked takes its value from `src`. */
  lemma {:induction false} MergeKeysTakes<V>(dest: Dict<V>, ks: seq<string>, src: map<string, V>)
    requires Valid(dest)
    requires forall k :: k in ks ==> k in src
    ensures forall k :: k in ks && k !in dest.entries ==>
      k in MergeKeys(dest, ks, src).entries && MergeKeys(dest, ks, src).entries[k] == src[k]
    decreases |ks|
  {
    if ks != [] {
      var k := ks[0];
      var next := if k in dest.entries then dest else Put(dest, k, src[k]);
      var r := MergeKeys(next, ks[1..], src);
      assert r == MergeKeys(dest, ks, src);
      MergeKeysTakes(next, ks[1..], src);
      if k !in dest.entries {
        assert k in next.entries && next.entries[k] == src[k];
        MergeKeysKeeps(next, ks[1..], src);
      }
      forall j | j in ks && j !in dest.entries
        ensures j in r.entries && r.entries[j] == src[j]
      {
        if j != k {
          assert j in ks[1..];
          assert j !in next.entries;
        }
      }
    }
  }

  /** Merging `src` into `dest` without overwriting: a left-biased union. */
  function MergeAbsent<V>(dest: Dict<V>, src: Dict<V>): (r: Dict<V>)
    requires Valid(dest) && Valid(src)
    ensures Valid(r)
    ensures dest.keys <= r.keys
    ensures r.entries.Keys == dest.entries.Keys + src.entries.Keys
    ensures forall k :: k in dest.entries ==> r.entries[k] == dest.entries[k]
    ensures forall k :: k in src.entries && k !in dest.entries ==> r.entries[k] == src.entries[k]
  {
    MergeKeysKeys(dest, src.keys, src.entries);
    MergeKeysKeeps(dest, src.keys, src.entries);
    MergeKeysTakes(dest, src.keys, src.entries);
    MergeKeys(dest, src.keys, src.entries)
  }

  /** The merge agrees with Dafny's map union taken with `dest` on the right,
      so `dest` wins on every shared key. */
  lemma MergeAbsentIsLeftUnion<V>(dest: Dict<V>, src: Dict<V>)
    requires Valid(dest) && Valid(src)
    ensures MergeAbsent(dest, src).entries == src.entries + dest.entries
  {
  }

  /** Keys never seen before are appended, so the merged dict holds exactly
      as many entries as `dest` plus the keys of `src` that `dest` lacked. */
  lemma MergeAbsentSize<V>(dest: Dict<V>, src: Dict<V>)
    requires Valid(dest) && Valid(src)
    ensures |MergeAbsent(dest, src).keys| == |dest.entries| + |src.entries.Keys - dest.entries.Keys|
  {
    var r := MergeAbsent(dest, src);
    UnionSize(r, dest.entries.Keys, src.entries.Keys);
  }

  /** A valid dict keyed by the union of two key sets holds the first set's
      keys plus those of the second the first lacks. */
  lemma UnionSize<V>(r: Dict<V>, a: set<string>, b: set<string>)
    requires Valid(r) && r.entries.Keys == a + b
    ensures |r.keys| == |a| + |b - a|
  {
    assert r.entries.Keys == a + (b - a);
    LenIsKeyCount(r);
    DisjointKeysCard(r.entries, a, b - a);
  }

  lemma DisjointKeysCard<V>(m: map<string, V>, a: set<string>, b: set<string>)
    requires m.Keys == a + b && a !! b
    ensures |m| == |a| + |b|
  {
    assert |m| == |m.Keys|;
  }
}
