/** The material bookkeeping of the merge script: the two renaming passes,
    the append-if-absent merge, the de-duplication by name and the lookup of
    the PEN material that gets its optical tables back. */
module Materials {

  import opened Results
  import opened Text
  import opened Dicts
  import opened Registries

  /** How a renaming pass selects material names: `name == text` or
      `text in name`. */
  datatype NamePattern = Exactly(text: string) | Containing(text: string)

  predicate Matches(p: NamePattern, name: string) {
    match p
    case Exactly(t) => name == t
    case Containing(t) => Contains(name, t)
  }

  /** `for mat in materials: if <p matches mat.name>: mat.name = newName`. */
  function RenameMatching(mats: seq<Material>, p: NamePattern, newName: string): (r: seq<Material>)
    ensures |r| == |mats|
    ensures forall i :: 0 <= i < |r| ==> r[i].id == mats[i].id && r[i].optical == mats[i].optical
    ensures forall i :: 0 <= i < |r| && Matches(p, mats[i].name) ==> r[i].name == newName
    ensures forall i :: 0 <= i < |r| && !Matches(p, mats[i].name) ==> r[i] == mats[i]
    decreases |mats|
  {
    if mats == [] then []
    else
      var m := mats[0];
      var head := if Matches(p, m.name) then m.(name := newName) else m;
      [head] + RenameMatching(mats[1..], p, newName)
  }

  /** The first pass: materials named exactly "PEN" become "PEN_STL". */
  function RenameExactPen(mats: seq<Material>): seq<Material> {
    RenameMatching(mats, Exactly("PEN"), "PEN_STL")
  }

  /** The second pass: every material whose name contains "PEN" becomes "PEN_stl". */
  function RenameAnyPen(mats: seq<Material>): seq<Material> {
    RenameMatching(mats, Containing("PEN"), "PEN_stl")
  }

  /** After the first pass no material is named "PEN", and only the materials
      that were named "PEN" changed. */
  lemma ExactPassRemovesPen(mats: seq<Material>)
    ensures |RenameExactPen(mats)| == |mats|
    ensures forall i :: 0 <= i < |mats| ==> RenameExactPen(mats)[i].name != "PEN"
    ensures forall i :: 0 <= i < |mats| && mats[i].name == "PEN" ==> RenameExactPen(mats)[i].name == "PEN_STL"
    ensures forall i :: 0 <= i < |mats| && mats[i].name != "PEN" ==> RenameExactPen(mats)[i] == mats[i]
  {
  }

  /** After the second pass a material name contains "PEN" exactly when it
      is "PEN_stl"; names without "PEN" are untouched. */
  lemma AnyPassNormalises(mats: seq<Material>)
    ensures |RenameAnyPen(mats)| == |mats|
    ensures forall i :: 0 <= i < |mats| ==>
      (Contains(RenameAnyPen(mats)[i].name, "PEN") <==> RenameAnyPen(mats)[i].name == "PEN_stl")
    ensures forall i :: 0 <= i < |mats| && !Contains(mats[i].name, "PEN") ==> RenameAnyPen(mats)[i] == mats[i]
  {
    var r := RenameAnyPen(mats);
    assert Contains("PEN_stl", "PEN");
    forall i | 0 <= i < |mats|
      ensures Contains(r[i].name, "PEN") <==> r[i].name == "PEN_stl"
    {
      if !Contains(mats[i].name, "PEN") {
        assert r[i] == mats[i];
      }
    }
  }

  /** A renaming pass is idempotent: re-running it changes nothing. */
  lemma {:induction false} RenameIdempotent(mats: seq<Material>, p: NamePattern, newName: string)
    ensures RenameMatching(RenameMatching(mats, p, newName), p, newName) == RenameMatching(mats, p, newName)
  {
    var once := RenameMatching(mats, p, newName);
    var twice := RenameMatching(once, p, newName);
    forall i | 0 <= i < |mats| ensures twice[i] == once[i] {
      if Matches(p, mats[i].name) {
        assert once[i] == Material(mats[i].id, newName, mats[i].optical);
      }
    }
  }

  /** The two passes together amount to the second one alone: "PEN_STL"
      itself contains "PEN". */
  lemma PassesCompose(mats: seq<Material>)
    ensures RenameAnyPen(RenameExactPen(mats)) == RenameAnyPen(mats)
  {
    var a, b := RenameAnyPen(RenameExactPen(mats)), RenameAnyPen(mats);
    assert Contains("PEN_STL", "PEN");
    assert Contains("PEN", "PEN");
    forall i | 0 <= i < |mats| ensures a[i] == b[i] {
      if Contains(mats[i].name, "PEN") {
        assert b[i] == Material(mats[i].id, "PEN_stl", mats[i].optical);
      }
    }
  }

  /** Renames, matching `p`, every list entry that is the object `id`. */
  function RenameObject(mats: seq<Material>, id: nat, p: NamePattern, newName: string): (r: seq<Material>)
    ensures |r| == |mats|
    ensures forall i :: 0 <= i < |r| ==> r[i].id == mats[i].id && r[i].optical == mats[i].optical
    ensures forall i :: 0 <= i < |r| && mats[i].id == id && Matches(p, mats[i].name) ==> r[i].name == newName
    ensures forall i :: 0 <= i < |r| && !(mats[i].id == id && Matches(p, mats[i].name)) ==> r[i] == mats[i]
    decreases |mats|
  {
    if mats == [] then []
    else
      var m := mats[0];
      var head := if m.id == id && Matches(p, m.name) then m.(name := newName) else m;
      [head] + RenameObject(mats[1..], id, p, newName)
  }

  /** The material objects referenced by the logical volumes `ks`. */
  function ReferencedIds(ks: seq<string>, lvs: map<string, LogicalVolume>): set<nat>
    requires forall k :: k in ks ==> k in lvs
    decreases |ks|
  {
    if ks == [] then {}
    else
      var own := if lvs[ks[0]].material.Some? then {lvs[ks[0]].material.value} else {};
      own + ReferencedIds(ks[1..], lvs)
  }

  /** `for lv in lvs.values(): if lv.material and <p matches lv.material.name>:
      lv.material.name = newName`, renaming the shared material object. */
  function RenameThroughVolumes(mats: seq<Material>, ks: seq<string>, lvs: map<string, LogicalVolume>,
                                p: NamePattern, newName: string): seq<Material>
    requires forall k :: k in ks ==> k in lvs
    decreases |ks|
  {
    if ks == [] then mats
    else
      var lv := lvs[ks[0]];
      var next := if lv.material.Some? then RenameObject(mats, lv.material.value, p, newName) else mats;
      RenameThroughVolumes(next, ks[1..], lvs, p, newName)
  }

  /** The logical-volume pass renames exactly the referenced materials whose
      name matches, whatever the order in which the volumes are visited. */
  lemma {:induction false} ThroughVolumesSpec(mats: seq<Material>, ks: seq<string>, lvs: map<string, LogicalVolume>,
                                              p: NamePattern, newName: string)
    requires forall k :: k in ks ==> k in lvs
    ensures |RenameThroughVolumes(mats, ks, lvs, p, newName)| == |mats|
    ensures forall i :: 0 <= i < |mats| ==>
      RenameThroughVolumes(mats, ks, lvs, p, newName)[i].id == mats[i].id &&
      RenameThroughVolumes(mats, ks, lvs, p, newName)[i].optical == mats[i].optical
    ensures forall i :: 0 <= i < |mats| && mats[i].id in ReferencedIds(ks, lvs) && Matches(p, mats[i].name) ==>
      RenameThroughVolumes(mats, ks, lvs, p, newName)[i].name == newName
    ensures forall i :: 0 <= i < |mats| && !(mats[i].id in ReferencedIds(ks, lvs) && Matches(p, mats[i].name)) ==>
      RenameThroughVolumes(mats, ks, lvs, p, newName)[i] == mats[i]
    decreases |ks|
  {
    if ks != [] {
      var lv := lvs[ks[0]];
      var next := if lv.material.Some? then RenameObject(mats, lv.material.value, p, newName) else mats;
      assert forall k :: k in ks[1..] ==> k in ks;
      ThroughVolumesSpec(next, ks[1..], lvs, p, newName);
      var r := RenameThroughVolumes(mats, ks, lvs, p, newName);
      assert r == RenameThroughVolumes(next, ks[1..], lvs, p, newName);
      var own := if lv.material.Some? then {lv.material.value} else {};
      assert ReferencedIds(ks, lvs) == own + ReferencedIds(ks[1..], lvs);
      forall i | 0 <= i < |mats| && mats[i].id in ReferencedIds(ks, lvs) && Matches(p, mats[i].name)
        ensures r[i].name == newName
      {
        if mats[i].id in own {
          assert next[i].name == newName;
          if Matches(p, newName) {
            assert r[i].name == newName;
          } else {
            assert r[i] == next[i];
          }
        } else {
          assert next[i] == mats[i];
        }
      }
    }
  }

  /** Once the material pass has run, the logical-volume pass that follows
      it in the script finds nothing left to rename. */
  lemma VolumePassAfterMaterialPass(mats: seq<Material>, ks: seq<string>, lvs: map<string, LogicalVolume>,
                                    p: NamePattern, newName: string)
    requires forall k :: k in ks ==> k in lvs
    ensures RenameThroughVolumes(RenameMatching(mats, p, newName), ks, lvs, p, newName)
         == RenameMatching(mats, p, newName)
  {
    var once := RenameMatching(mats, p, newName);
    var r := RenameThroughVolumes(once, ks, lvs, p, newName);
    ThroughVolumesSpec(once, ks, lvs, p, newName);
    forall i | 0 <= i < |once| ensures r[i] == once[i] {
      if Matches(p, mats[i].name) {
        assert once[i].name == newName;
      }
    }
  }

  /** The set of names in a material list. */
  function MaterialNames(ms: seq<Material>): set<string> {
    set i | 0 <= i < |ms| :: ms[i].name
  }

  lemma MaterialNamesAppend(ms: seq<Material>, m: Material)
    ensures MaterialNames(ms + [m]) == MaterialNames(ms) + {m.name}
  {
    var ext := ms + [m];
    forall n | n in MaterialNames(ext) ensures n in MaterialNames(ms) + {m.name} {
      var i :| 0 <= i < |ext| && ext[i].name == n;
      if i < |ms| { assert ext[i] == ms[i]; }
    }
    forall n | n in MaterialNames(ms) ensures n in MaterialNames(ext) {
      var i :| 0 <= i < |ms| && ms[i].name == n;
      assert ext[i] == ms[i];
    }
    assert ext[|ms|] == m;
  }

  lemma MaterialNamesCons(ms: seq<Material>)
    requires ms != []
    ensures MaterialNames(ms) == {ms[0].name} + MaterialNames(ms[1..])
  {
    forall n | n in MaterialNames(ms) ensures n in {ms[0].name} + MaterialNames(ms[1..]) {
      var i :| 0 <= i < |ms| && ms[i].name == n;
      if i > 0 { assert ms[1..][i - 1] == ms[i]; }
    }
    forall n | n in MaterialNames(ms[1..]) ensures n in MaterialNames(ms) {
      var i :| 0 <= i < |ms[1..]| && ms[1..][i].name == n;
      assert ms[i + 1] == ms[1..][i];
    }
  }

  /** No two entries share a name. */
  ghost predicate DistinctNames(ms: seq<Material>) {
    forall i, j :: 0 <= i < j < |ms| ==> ms[i].name != ms[j].name
  }

  /** The position of the first entry named `name`. */
  function FirstIndex(ms: seq<Material>, name: string): (k: nat)
    requires name in MaterialNames(ms)
    ensures k < |ms| && ms[k].name == name
    ensures forall j :: 0 <= j < k ==> ms[j].name != name
    decreases |ms|
  {
    MaterialNamesCons(ms);
    if ms[0].name == name then 0 else 1 + FirstIndex(ms[1..], name)
  }

  /** `a` is `b` with some entries left out, in the same order. */
  predicate IsSubsequence<T(==)>(a: seq<T>, b: seq<T>)
    decreases |b|
  {
    a == [] || (b != [] && ((a[0] == b[0] && IsSubsequence(a[1..], b[1..])) || IsSubsequence(a, b[1..])))
  }

  /** The entries of `ms` whose name is neither in `seen` nor taken by an
      earlier entry, in order. */
  function KeepFirst(seen: set<string>, ms: seq<Material>): (r: seq<Material>)
    ensures DistinctNames(r)
    ensures MaterialNames(r) == MaterialNames(ms) - seen
    ensures IsSubsequence(r, ms)
    ensures forall i :: 0 <= i < |r| ==> r[i].name in MaterialNames(ms) && r[i] == ms[FirstIndex(ms, r[i].name)]
    decreases |ms|
  {
    if ms == [] then []
    else
      var m := ms[0];
      MaterialNamesCons(ms);
      if m.name in seen then
        var rest := KeepFirst(seen, ms[1..]);
        assert forall i :: 0 <= i < |rest| ==> rest[i].name != m.name by {
          assert forall i :: 0 <= i < |rest| ==> rest[i].name in MaterialNames(rest);
        }
        rest
      else
        var rest := KeepFirst(seen + {m.name}, ms[1..]);
        var r := [m] + rest;
        assert forall i :: 0 <= i < |rest| ==> rest[i].name != m.name by {
          assert forall i :: 0 <= i < |rest| ==> rest[i].name in MaterialNames(rest);
        }
        assert r[1..] == rest;
        MaterialNamesCons(r);
        r
  }

  /** The de-duplication loop keeping the first material of each name. */
  function Dedup(ms: seq<Material>): (r: seq<Material>)
    ensures DistinctNames(r)
    ensures MaterialNames(r) == MaterialNames(ms)
    ensures IsSubsequence(r, ms)
    ensures forall i :: 0 <= i < |r| ==> r[i].name in MaterialNames(ms) && r[i] == ms[FirstIndex(ms, r[i].name)]
  {
    KeepFirst({}, ms)
  }

  lemma {:induction false} KeepFirstUnchanged(seen: set<string>, ms: seq<Material>)
    requires DistinctNames(ms) && MaterialNames(ms) !! seen
    ensures KeepFirst(seen, ms) == ms
    decreases |ms|
  {
    if ms != [] {
      MaterialNamesCons(ms);
      assert ms[0].name !in MaterialNames(ms[1..]) by {
        forall j | 0 <= j < |ms[1..]| ensures ms[1..][j].name != ms[0].name {
          assert ms[1..][j] == ms[j + 1];
        }
      }
      KeepFirstUnchanged(seen + {ms[0].name}, ms[1..]);
    }
  }

  /** De-duplication changes the list exactly when two materials share a name. */
  lemma DedupIdentity(ms: seq<Material>)
    ensures Dedup(ms) == ms <==> DistinctNames(ms)
  {
    if DistinctNames(ms) {
      KeepFirstUnchanged({}, ms);
    }
  }

  /** `for mat in src: if all(mat.name != m.name for m in dest): dest.append(mat)`,
      where `dest` grows as the loop appends. */
  function AppendAbsent(dest: seq<Material>, src: seq<Material>): seq<Material>
    decreases |src|
  {
    if src == [] then dest
    else
      var next := if src[0].name !in MaterialNames(dest) then dest + [src[0]] else dest;
      AppendAbsent(next, src[1..])
  }

  /** The material merge keeps the existing list as a prefix and appends the
      first source material of every name the list does not have yet. */
  lemma {:induction false} AppendAbsentIsKeepFirst(dest: seq<Material>, src: seq<Material>)
    ensures AppendAbsent(dest, src) == dest + KeepFirst(MaterialNames(dest), src)
    decreases |src|
  {
    if src != [] {
      var m := src[0];
      if m.name !in MaterialNames(dest) {
        MaterialNamesAppend(dest, m);
        AppendAbsentIsKeepFirst(dest + [m], src[1..]);
        assert KeepFirst(MaterialNames(dest), src) == [m] + KeepFirst(MaterialNames(dest) + {m.name}, src[1..]);
      } else {
        AppendAbsentIsKeepFirst(dest, src[1..]);
      }
    }
  }

  /** Consequences for the merged list: the existing list is a prefix, the
      names are the union, and when the existing names were distinct the
      merged names still are. */
  lemma AppendAbsentSpec(dest: seq<Material>, src: seq<Material>)
    ensures dest <= AppendAbsent(dest, src)
    ensures MaterialNames(AppendAbsent(dest, src)) == MaterialNames(dest) + MaterialNames(src)
    ensures forall i :: |dest| <= i < |AppendAbsent(dest, src)| ==> AppendAbsent(dest, src)[i].name !in MaterialNames(dest)
    ensures DistinctNames(dest) ==> DistinctNames(AppendAbsent(dest, src))
  {
    AppendAbsentIsKeepFirst(dest, src);
    var tail := KeepFirst(MaterialNames(dest), src);
    var r := dest + tail;
    assert forall i :: 0 <= i < |tail| ==> tail[i].name in MaterialNames(tail);
    forall n | n in MaterialNames(r) ensures n in MaterialNames(dest) + MaterialNames(src) {
      var i :| 0 <= i < |r| && r[i].name == n;
      if i >= |dest| { assert r[i] == tail[i - |dest|]; }
    }
    forall n | n in MaterialNames(dest) + MaterialNames(src) ensures n in MaterialNames(r) {
      if n in MaterialNames(dest) {
        var i :| 0 <= i < |dest| && dest[i].name == n;
        assert r[i] == dest[i];
      } else {
        assert n in MaterialNames(tail);
        var i :| 0 <= i < |tail| && tail[i].name == n;
        assert r[|dest| + i] == tail[i];
      }
    }
    forall i | |dest| <= i < |r| ensures r[i].name !in MaterialNames(dest) {
      assert r[i] == tail[i - |dest|];
    }
    if DistinctNames(dest) {
      forall i, j | 0 <= i < j < |r| ensures r[i].name != r[j].name {
        if j >= |dest| {
          assert r[j] == tail[j - |dest|];
          if i >= |dest| {
            assert r[i] == tail[i - |dest|];
          } else {
            assert r[i].name in MaterialNames(dest);
          }
        }
      }
    }
  }

  /** `next((m for m in materials if m.name == "PEN"), None)` followed by
      attaching the PEN optical tables to that material. */
  function ReattachPenOptics(ms: seq<Material>): (r: seq<Material>)
    ensures |r| == |ms|
    ensures forall i :: 0 <= i < |r| ==> r[i].id == ms[i].id && r[i].name == ms[i].name
    ensures "PEN" !in MaterialNames(ms) ==> r == ms
    ensures "PEN" in MaterialNames(ms) ==> r[FirstIndex(ms, "PEN")].optical
    ensures "PEN" in MaterialNames(ms) ==> forall i :: 0 <= i < |r| && i != FirstIndex(ms, "PEN") ==> r[i] == ms[i]
  {
    if "PEN" in MaterialNames(ms) then
      var k := FirstIndex(ms, "PEN");
      ms[k := ms[k].(optical := true)]
    else ms
  }
}
