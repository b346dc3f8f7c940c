/** The define merge of the merge script: every define of the mesh-derived
    registry is stored in the main registry under its own name, extended by
    "_stl" as often as needed to find a key that is not taken yet. */
module Defines {

  import opened Dicts
  import opened Registries

  /** "_stl" repeated `n` times. */
  function StlSuffix(n: nat): (s: string)
    ensures |s| == 4 * n
  {
    if n == 0 then "" else StlSuffix(n - 1) + "_stl"
  }

  /** `name` after `n` rounds of `name += "_stl"`. */
  function Suffixed(name: string, n: nat): (s: string)
    ensures |s| == |name| + 4 * n
  {
    name + StlSuffix(n)
  }

  lemma SuffixedStep(name: string, n: nat)
    ensures Suffixed(name, n) + "_stl" == Suffixed(name, n + 1)
    ensures Suffixed(name, 0) == name
  {
    assert StlSuffix(n + 1) == StlSuffix(n) + "_stl";
    assert name + StlSuffix(0) == name;
  }

  /** An upper bound on the length of the keys: no key is longer. */
  ghost function MaxLen(keys: set<string>): (m: nat)
    ensures forall k :: k in keys ==> |k| <= m
    decreases keys
  {
    if keys == {} then 0
    else
      var k :| k in keys;
      var rest := MaxLen(keys - {k});
      if |k| > rest then |k| else rest
  }

  /** The search continued from `n` suffixes, all shorter ones being taken. */
  function SuffixCountFrom(keys: set<string>, name: string, n: nat): (c: nat)
    requires forall j :: 0 <= j < n ==> Suffixed(name, j) in keys
    ensures n <= c
    ensures Suffixed(name, c) !in keys
    ensures forall j :: 0 <= j < c ==> Suffixed(name, j) in keys
    decreases MaxLen(keys) - |Suffixed(name, n)|
  {
    if Suffixed(name, n) !in keys then n
    else SuffixCountFrom(keys, name, n + 1)
  }

  /** The fewest "_stl" suffixes that turn `name` into a key not in `keys`. */
  function SuffixCount(keys: set<string>, name: string): (n: nat)
    ensures Suffixed(name, n) !in keys
    ensures forall j :: 0 <= j < n ==> Suffixed(name, j) in keys
  {
    SuffixCountFrom(keys, name, 0)
  }

  /** Only one count has both properties, so the search result is unique. */
  lemma SuffixCountUnique(keys: set<string>, name: string, n: nat)
    requires Suffixed(name, n) !in keys
    requires forall j :: 0 <= j < n ==> Suffixed(name, j) in keys
    ensures n == SuffixCount(keys, name)
  {
  }

  /** The key a define named `name` is stored under. */
  function FreshName(keys: set<string>, name: string): (r: string)
    ensures r !in keys
  {
    Suffixed(name, SuffixCount(keys, name))
  }

  /** `new_name = name; while new_name in defines: new_name += "_stl"`. */
  method FreshDefineKey(keys: set<string>, name: string) returns (newName: string)
    ensures newName !in keys
    ensures newName == Suffixed(name, SuffixCount(keys, name))
  {
    newName := name;
    ghost var n: nat := 0;
    SuffixedStep(name, 0);
    while newName in keys
      invariant newName == Suffixed(name, n)
      invariant forall j :: 0 <= j < n ==> Suffixed(name, j) in keys
      decreases MaxLen(keys) - |newName|
    {
      SuffixedStep(name, n);
      newName := newName + "_stl";
      n := n + 1;
    }
    SuffixCountUnique(keys, name, n);
  }

  function KeySet(ks: seq<string>): set<string> {
    set k | k in ks
  }

  /** `for name, obj in src.items(): new_name = <fresh>; obj.name = new_name;
      dest[new_name] = obj`, over the keys `ks` in iteration order. */
  function MergeDefineKeys(dest: Dict<Define>, ks: seq<string>, src: map<string, Define>): (r: Dict<Define>)
    requires Valid(dest)
    requires forall k :: k in ks ==> k in src
    ensures Valid(r)
    ensures dest.keys <= r.keys
    ensures |r.keys| == |dest.keys| + |ks|
    ensures forall k :: k in dest.entries ==> k in r.entries && r.entries[k] == dest.entries[k]
    decreases |ks|
  {
    if ks == [] then dest
    else
      var key := FreshName(dest.entries.Keys, ks[0]);
      assert forall k :: k in ks[1..] ==> k in ks;
      MergeDefineKeys(Put(dest, key, src[ks[0]].(name := key)), ks[1..], src)
  }

  lemma KeySetOfValid(d: Dict<Define>)
    requires Valid(d)
    ensures KeySet(d.keys) == d.entries.Keys
  {
  }

  /** Entry `i` of `ks` was stored at position `base + i` of `r`, under the
      fewest-suffix key not taken by the keys before it, with its `name` set
      to that key. */
  ghost predicate PlacedAt(r: Dict<Define>, base: nat, ks: seq<string>, src: map<string, Define>, i: nat)
    requires i < |ks| && ks[i] in src
  {
    && base + i < |r.keys|
    && r.keys[base + i] == FreshName(KeySet(r.keys[..base + i]), ks[i])
    && r.keys[base + i] in r.entries
    && r.entries[r.keys[base + i]] == src[ks[i]].(name := r.keys[base + i])
  }

  /** Dropping the first key and moving the base one step right describes
      the same position. */
  lemma PlacedAtShift(r: Dict<Define>, base: nat, ks: seq<string>, src: map<string, Define>, i: nat)
    requires 0 < i < |ks| && forall k :: k in ks ==> k in src
    requires ks[1..][i - 1] in src
    requires PlacedAt(r, base + 1, ks[1..], src, i - 1)
    ensures PlacedAt(r, base, ks, src, i)
  {
    assert ks[1..][i - 1] == ks[i];
    assert base + 1 + (i - 1) == base + i;
  }

  /** The first merged define lands right after the defines already present. */
  lemma MergeDefineKeysFirst(dest: Dict<Define>, ks: seq<string>, src: map<string, Define>)
    requires Valid(dest)
    requires forall k :: k in ks ==> k in src
    requires ks != []
    ensures PlacedAt(MergeDefineKeys(dest, ks, src), |dest.keys|, ks, src, 0)
  {
    var key := FreshName(dest.entries.Keys, ks[0]);
    var next := Put(dest, key, src[ks[0]].(name := key));
    assert forall k :: k in ks[1..] ==> k in ks;
    var r := MergeDefineKeys(next, ks[1..], src);
    assert r == MergeDefineKeys(dest, ks, src);
    assert next.keys == dest.keys + [key];
    assert r.keys[..|dest.keys|] == dest.keys;
    KeySetOfValid(dest);
    assert r.keys[|dest.keys|] == key;
    assert next.entries[key] == src[ks[0]].(name := key);
  }

  /** Every merged define lands after the defines already present, in the
      source order, each under the fewest-suffix key free at its turn. */
  lemma {:induction false} MergeDefineKeysPlaces(dest: Dict<Define>, ks: seq<string>, src: map<string, Define>, i: nat)
    requires Valid(dest)
    requires forall k :: k in ks ==> k in src
    requires i < |ks|
    ensures PlacedAt(MergeDefineKeys(dest, ks, src), |dest.keys|, ks, src, i)
    decreases |ks|
  {
    if i == 0 {
      MergeDefineKeysFirst(dest, ks, src);
    } else {
      var key := FreshName(dest.entries.Keys, ks[0]);
      var next := Put(dest, key, src[ks[0]].(name := key));
      assert forall k :: k in ks[1..] ==> k in ks;
      var r := MergeDefineKeys(next, ks[1..], src);
      assert r == MergeDefineKeys(dest, ks, src);
      MergeDefineKeysPlaces(next, ks[1..], src, i - 1);
      assert |next.keys| == |dest.keys| + 1;
      PlacedAtShift(r, |dest.keys|, ks, src, i);
    }
  }

  /** The whole define merge. */
  function MergeDefines(dest: Dict<Define>, src: Dict<Define>): (r: Dict<Define>)
    requires Valid(dest) && Valid(src)
    ensures Valid(r)
    ensures dest.keys <= r.keys
    ensures |r.keys| == |dest.keys| + |src.keys|
    ensures forall k :: k in dest.entries ==> k in r.entries && r.entries[k] == dest.entries[k]
    ensures forall i :: 0 <= i < |src.keys| ==>
      && r.keys[|dest.keys| + i] == FreshName(KeySet(r.keys[..|dest.keys| + i]), src.keys[i])
      && r.entries[r.keys[|dest.keys| + i]].name == r.keys[|dest.keys| + i]
      && r.entries[r.keys[|dest.keys| + i]].handle == src.entries[src.keys[i]].handle
  {
    var r := MergeDefineKeys(dest, src.keys, src.entries);
    forall i | 0 <= i < |src.keys|
      ensures r.keys[|dest.keys| + i] == FreshName(KeySet(r.keys[..|dest.keys| + i]), src.keys[i])
      ensures r.entries[r.keys[|dest.keys| + i]].name == r.keys[|dest.keys| + i]
      ensures r.entries[r.keys[|dest.keys| + i]].handle == src.entries[src.keys[i]].handle
    {
      MergeDefineKeysPlaces(dest, src.keys, src.entries, i);
      assert PlacedAt(r, |dest.keys|, src.keys, src.entries, i);
    }
    r
  }

  /** Nothing is overwritten: the merged registry holds every existing define
      and one new define per mesh-derived define. */
  lemma MergeDefinesCount(dest: Dict<Define>, src: Dict<Define>)
    requires Valid(dest) && Valid(src)
    ensures |MergeDefines(dest, src).entries| == |dest.entries| + |src.entries|
  {
    var r := MergeDefines(dest, src);
    LenIsKeyCount(r);
    LenIsKeyCount(dest);
    LenIsKeyCount(src);
  }
}
