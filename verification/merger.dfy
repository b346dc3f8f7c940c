/** The merge script as a whole: the renaming passes on the mesh-derived
    registry, the merge of its defines, materials, solids, logical and
    physical volumes into the main registry, and the placement of three
    copies of the mesh-derived PEN volume in the liquid argon. */
module Merger {

  import opened Results
  import opened Text
  import opened Dicts
  import opened Detectors
  import opened Registries
  import opened Materials
  import opened Defines

  /** The errors the script raises itself. */
  datatype MergeError =
    | NoStlLogicalVolume                    // `list(...)[0]` on an empty dict
    | LogicalVolumeNotFound(name: string)   // the `ValueError` of `find_logical_volume`

  /** The material renaming of the mesh-derived registry: the exact pass and
      its logical-volume pass, then the substring pass and its
      logical-volume pass. */
  function RenameStlMaterials(stl: Registry): seq<Material>
    requires Valid(stl.lvs)
  {
    var ks, lvs := stl.lvs.keys, stl.lvs.entries;
    var first := RenameThroughVolumes(RenameExactPen(stl.materials), ks, lvs, Exactly("PEN"), "PEN_STL");
    RenameThroughVolumes(RenameAnyPen(first), ks, lvs, Containing("PEN"), "PEN_stl")
  }

  /** The four passes together do what the substring pass alone does to the
      material list. */
  lemma StlRenamingIsSubstringPass(stl: Registry)
    requires Valid(stl.lvs)
    ensures RenameStlMaterials(stl) == RenameAnyPen(stl.materials)
  {
    var ks, lvs := stl.lvs.keys, stl.lvs.entries;
    VolumePassAfterMaterialPass(stl.materials, ks, lvs, Exactly("PEN"), "PEN_STL");
    PassesCompose(stl.materials);
    VolumePassAfterMaterialPass(stl.materials, ks, lvs, Containing("PEN"), "PEN_stl");
  }

  /** The merged material list: append-if-absent, de-duplication, and the
      PEN optical tables attached again to the first material named "PEN". */
  function MergeMaterials(dest: seq<Material>, src: seq<Material>): (r: seq<Material>)
    ensures DistinctNames(r)
    ensures MaterialNames(r) == MaterialNames(dest) + MaterialNames(src)
    ensures "PEN" in MaterialNames(r) ==> r[FirstIndex(r, "PEN")].optical
    ensures DistinctNames(dest) ==> |dest| <= |r| && forall i :: 0 <= i < |dest| ==> r[i].id == dest[i].id && r[i].name == dest[i].name
  {
    var unique := Dedup(AppendAbsent(dest, src));
    MergeMaterialsFacts(dest, src);
    ReattachKeepsDistinct(unique);
    ReattachPenOptics(unique)
  }

  lemma MergeMaterialsFacts(dest: seq<Material>, src: seq<Material>)
    ensures var unique := Dedup(AppendAbsent(dest, src));
      && MaterialNames(unique) == MaterialNames(dest) + MaterialNames(src)
      && (DistinctNames(dest) ==> unique == AppendAbsent(dest, src) && dest <= unique)
  {
    var appended := AppendAbsent(dest, src);
    AppendAbsentSpec(dest, src);
    DedupIdentity(appended);
  }

  lemma ReattachKeepsDistinct(ms: seq<Material>)
    requires DistinctNames(ms)
    ensures DistinctNames(ReattachPenOptics(ms))
    ensures MaterialNames(ReattachPenOptics(ms)) == MaterialNames(ms)
  {
    var r := ReattachPenOptics(ms);
    assert forall i :: 0 <= i < |r| ==> r[i].name == ms[i].name;
  }

  /** Merging the mesh-derived registry into the main one. */
  function MergeRegistries(remage: Registry, stl: Registry): (r: Registry)
    requires ValidRegistry(remage) && ValidRegistry(stl)
    ensures ValidRegistry(r)
    ensures |r.defines.entries| == |remage.defines.entries| + |stl.defines.entries|
    ensures forall k :: k in remage.defines.entries ==> k in r.defines.entries && r.defines.entries[k] == remage.defines.entries[k]
    ensures DistinctNames(r.materials)
    ensures MaterialNames(r.materials) == MaterialNames(remage.materials) + MaterialNames(RenameAnyPen(stl.materials))
    ensures "PEN" in MaterialNames(r.materials) ==> r.materials[FirstIndex(r.materials, "PEN")].optical
    ensures r.solids.entries.Keys == remage.solids.entries.Keys + stl.solids.entries.Keys
    ensures r.lvs.entries.Keys == remage.lvs.entries.Keys + stl.lvs.entries.Keys
    ensures r.pvs.entries.Keys == remage.pvs.entries.Keys + stl.pvs.entries.Keys
    ensures forall k :: k in remage.solids.entries ==> r.solids.entries[k] == remage.solids.entries[k]
    ensures forall k :: k in stl.solids.entries && k !in remage.solids.entries ==> r.solids.entries[k] == stl.solids.entries[k]
    ensures forall k :: k in remage.lvs.entries ==> r.lvs.entries[k] == remage.lvs.entries[k]
    ensures forall k :: k in stl.lvs.entries && k !in remage.lvs.entries ==> r.lvs.entries[k] == stl.lvs.entries[k]
    ensures forall k :: k in remage.pvs.entries ==> r.pvs.entries[k] == remage.pvs.entries[k]
    ensures forall k :: k in stl.pvs.entries && k !in remage.pvs.entries ==> r.pvs.entries[k] == stl.pvs.entries[k]
  {
    var stlMaterials := RenameStlMaterials(stl);
    StlRenamingIsSubstringPass(stl);
    var defines := MergeDefines(remage.defines, stl.defines);
    MergeDefinesCount(remage.defines, stl.defines);
    Registry(
      defines,
      MergeMaterials(remage.materials, stlMaterials),
      MergeAbsent(remage.solids, stl.solids),
      MergeAbsent(remage.lvs, stl.lvs),
      MergeAbsent(remage.pvs, stl.pvs))
  }

  /** `find_logical_volume(registry, name)`. */
  function FindLogicalVolume(reg: Registry, name: string): (r: Result<LogicalVolume, MergeError>)
    ensures r.Ok? <==> name in reg.lvs.entries
    ensures r.Ok? ==> r.value == reg.lvs.entries[name]
    ensures r.Err? ==> r.error == LogicalVolumeNotFound(name)
  {
    if name in reg.lvs.entries then Ok(reg.lvs.entries[name]) else Err(LogicalVolumeNotFound(name))
  }

  /** `f"PEN_stl_pv_{i}"`. */
  function CopyName(i: nat): string {
    "PEN_stl_pv_" + Decimal(i)
  }

  lemma CopyNamesDistinct(i: nat, j: nat)
    requires i != j
    ensures CopyName(i) != CopyName(j)
  {
    assert CopyName(i)[11..] == Decimal(i);
    assert CopyName(j)[11..] == Decimal(j);
    DecimalInjective(i, j);
  }

  /** The tag each copy receives: scintillator 100, named "PEN_stl". */
  function CopyTag(): DetectorInfo {
    DetectorInfo("scintillator", 100, NameMeta("PEN_stl"))
  }

  function CopyNames(from: nat, count: nat): set<string> {
    set i | from <= i < from + count :: CopyName(i)
  }

  /** The physical-volume dict and the tags after the placement loop. */
  datatype Placement = Placement(pvs: Dict<PhysicalVolume>, tags: ActiveDetectors)

  /** The volume copy `n` places: the PEN volume in the argon volume at
      `pos`, unrotated. */
  function CopyVolume(penLv: LogicalVolume, larLv: LogicalVolume, pos: Vec3, n: nat): PhysicalVolume {
    PhysicalVolume(CopyName(n), penLv.name, larLv.name, Vec3(0.0, 0.0, 0.0), pos)
  }

  /** One pass of the loop body: copy `n` is built and registered under its
      name in the main registry, then tagged unless the library reports a
      `pygeom_active_detector` attribute on the fresh volume (`preTagged`),
      in which case the script only reports it. */
  function PlaceOne(acc: Placement, penLv: LogicalVolume, larLv: LogicalVolume, pos: Vec3, n: nat, preTagged: bool)
    : (r: Placement)
    requires Valid(acc.pvs)
    ensures Valid(r.pvs)
  {
    var name := CopyName(n);
    Placement(Put(acc.pvs, name, CopyVolume(penLv, larLv, pos, n)), AttachIfAbsent(acc.tags, name, preTagged, CopyTag()))
  }

  /** One pass registers copy `n`, tags it exactly when the fresh volume
      carries no tag, and leaves every other name alone. */
  lemma PlaceOneSpec(acc: Placement, penLv: LogicalVolume, larLv: LogicalVolume, pos: Vec3, n: nat, preTagged: bool)
    requires Valid(acc.pvs)
    ensures var r := PlaceOne(acc, penLv, larLv, pos, n, preTagged);
      && r.pvs.entries.Keys == acc.pvs.entries.Keys + {CopyName(n)}
      && r.pvs.entries[CopyName(n)] == CopyVolume(penLv, larLv, pos, n)
      && (forall k :: k in acc.pvs.entries && k != CopyName(n) ==> r.pvs.entries[k] == acc.pvs.entries[k])
      && (preTagged ==> r.tags == acc.tags)
      && (!preTagged ==> r.tags.Keys == acc.tags.Keys + {CopyName(n)} && r.tags[CopyName(n)] == CopyTag())
      && (forall k :: k in acc.tags && k != CopyName(n) ==> k in r.tags && r.tags[k] == acc.tags[k])
  {
  }

  /** `for i, pos in enumerate(positions)`, from index `from` on. */
  function PlaceCopies(acc: Placement, penLv: LogicalVolume, larLv: LogicalVolume,
                       positions: seq<Vec3>, from: nat, preTagged: bool): (r: Placement)
    requires Valid(acc.pvs)
    ensures Valid(r.pvs)
    decreases |positions|
  {
    if positions == [] then acc
    else PlaceCopies(PlaceOne(acc, penLv, larLv, positions[0], from, preTagged), penLv, larLv, positions[1..], from + 1, preTagged)
  }

  lemma CopyNamesSplit(from: nat, count: nat)
    requires count > 0
    ensures CopyNames(from, count) == {CopyName(from)} + CopyNames(from + 1, count - 1)
    ensures CopyName(from) !in CopyNames(from + 1, count - 1)
  {
    forall n | n in CopyNames(from, count) ensures n in {CopyName(from)} + CopyNames(from + 1, count - 1) {
      var i :| from <= i < from + count && CopyName(i) == n;
    }
    forall i | from + 1 <= i < from + count ensures CopyName(i) != CopyName(from) {
      CopyNamesDistinct(i, from);
    }
  }

  /** The loop adds exactly the copy names to the volume dict. */
  lemma {:induction false} PlaceCopiesVolumeKeys(acc: Placement, penLv: LogicalVolume, larLv: LogicalVolume,
      positions: seq<Vec3>, from: nat, preTagged: bool)
    requires Valid(acc.pvs)
    ensures PlaceCopies(acc, penLv, larLv, positions, from, preTagged).pvs.entries.Keys == acc.pvs.entries.Keys + CopyNames(from, |positions|)
    decreases |positions|
  {
    if positions == [] {
      assert CopyNames(from, 0) == {};
    } else {
      var next := PlaceOne(acc, penLv, larLv, positions[0], from, preTagged);
      PlaceOneSpec(acc, penLv, larLv, positions[0], from, preTagged);
      PlaceCopiesVolumeKeys(next, penLv, larLv, positions[1..], from + 1, preTagged);
      CopyNamesSplit(from, |positions|);
    }
  }

  /** When the fresh volumes carry no tag, the loop tags exactly the copies. */
  lemma {:induction false} PlaceCopiesTagKeys(acc: Placement, penLv: LogicalVolume, larLv: LogicalVolume,
      positions: seq<Vec3>, from: nat, preTagged: bool)
    requires Valid(acc.pvs)
    requires !preTagged
    ensures PlaceCopies(acc, penLv, larLv, positions, from, preTagged).tags.Keys == acc.tags.Keys + CopyNames(from, |positions|)
    decreases |positions|
  {
    if positions == [] {
      assert CopyNames(from, 0) == {};
    } else {
      var next := PlaceOne(acc, penLv, larLv, positions[0], from, preTagged);
      PlaceOneSpec(acc, penLv, larLv, positions[0], from, preTagged);
      PlaceCopiesTagKeys(next, penLv, larLv, positions[1..], from + 1, preTagged);
      CopyNamesSplit(from, |positions|);
    }
  }

  /** When the library reports a tag on every fresh volume, the loop tags
      nothing. */
  lemma {:induction false} PlaceCopiesPreTagged(acc: Placement, penLv: LogicalVolume, larLv: LogicalVolume,
      positions: seq<Vec3>, from: nat, preTagged: bool)
    requires Valid(acc.pvs)
    requires preTagged
    ensures PlaceCopies(acc, penLv, larLv, positions, from, preTagged).tags == acc.tags
    decreases |positions|
  {
    if positions != [] {
      var next := PlaceOne(acc, penLv, larLv, positions[0], from, preTagged);
      PlaceOneSpec(acc, penLv, larLv, positions[0], from, preTagged);
      PlaceCopiesPreTagged(next, penLv, larLv, positions[1..], from + 1, preTagged);
    }
  }

  /** The loop adds exactly the copy names to the volume dict, and to the tags
      exactly when the fresh volumes carry no tag. */
  lemma PlaceCopiesKeys(acc: Placement, penLv: LogicalVolume, larLv: LogicalVolume,
      positions: seq<Vec3>, from: nat, preTagged: bool)
    requires Valid(acc.pvs)
    ensures PlaceCopies(acc, penLv, larLv, positions, from, preTagged).pvs.entries.Keys == acc.pvs.entries.Keys + CopyNames(from, |positions|)
    ensures !preTagged ==> PlaceCopies(acc, penLv, larLv, positions, from, preTagged).tags.Keys == acc.tags.Keys + CopyNames(from, |positions|)
    ensures preTagged ==> PlaceCopies(acc, penLv, larLv, positions, from, preTagged).tags == acc.tags
  {
    PlaceCopiesVolumeKeys(acc, penLv, larLv, positions, from, preTagged);
    if preTagged {
      PlaceCopiesPreTagged(acc, penLv, larLv, positions, from, preTagged);
    } else {
      PlaceCopiesTagKeys(acc, penLv, larLv, positions, from, preTagged);
    }
  }

  /** The volume of any other name is left as it was. */
  lemma {:induction false} PlaceCopiesKeepsVolume(acc: Placement, penLv: LogicalVolume, larLv: LogicalVolume,
      positions: seq<Vec3>, from: nat, preTagged: bool, k: string)
    requires Valid(acc.pvs)
    requires k in acc.pvs.entries && k !in CopyNames(from, |positions|)
    ensures k in PlaceCopies(acc, penLv, larLv, positions, from, preTagged).pvs.entries
    ensures PlaceCopies(acc, penLv, larLv, positions, from, preTagged).pvs.entries[k] == acc.pvs.entries[k]
    decreases |positions|
  {
    if positions != [] {
      var next := PlaceOne(acc, penLv, larLv, positions[0], from, preTagged);
      PlaceOneSpec(acc, penLv, larLv, positions[0], from, preTagged);
      CopyNamesSplit(from, |positions|);
      PlaceCopiesKeepsVolume(next, penLv, larLv, positions[1..], from + 1, preTagged, k);
    }
  }

  /** The tag of any other name is left as it was. */
  lemma {:induction false} PlaceCopiesKeepsTag(acc: Placement, penLv: LogicalVolume, larLv: LogicalVolume,
      positions: seq<Vec3>, from: nat, preTagged: bool, k: string)
    requires Valid(acc.pvs)
    requires k in acc.tags && k !in CopyNames(from, |positions|)
    ensures k in PlaceCopies(acc, penLv, larLv, positions, from, preTagged).tags
    ensures PlaceCopies(acc, penLv, larLv, positions, from, preTagged).tags[k] == acc.tags[k]
    decreases |positions|
  {
    if positions != [] {
      var next := PlaceOne(acc, penLv, larLv, positions[0], from, preTagged);
      PlaceOneSpec(acc, penLv, larLv, positions[0], from, preTagged);
      CopyNamesSplit(from, |positions|);
      PlaceCopiesKeepsTag(next, penLv, larLv, positions[1..], from + 1, preTagged, k);
    }
  }

  /** Entries and tags of any other name are left as they were. */
  lemma PlaceCopiesKeeps(acc: Placement, penLv: LogicalVolume, larLv: LogicalVolume,
      positions: seq<Vec3>, from: nat, preTagged: bool)
    requires Valid(acc.pvs)
    ensures forall k :: k in acc.pvs.entries && k !in CopyNames(from, |positions|) ==>
      k in PlaceCopies(acc, penLv, larLv, positions, from, preTagged).pvs.entries &&
      PlaceCopies(acc, penLv, larLv, positions, from, preTagged).pvs.entries[k] == acc.pvs.entries[k]
    ensures forall k :: k in acc.tags && k !in CopyNames(from, |positions|) ==>
      k in PlaceCopies(acc, penLv, larLv, positions, from, preTagged).tags &&
      PlaceCopies(acc, penLv, larLv, positions, from, preTagged).tags[k] == acc.tags[k]
  {
    forall k | k in acc.pvs.entries && k !in CopyNames(from, |positions|)
      ensures k in PlaceCopies(acc, penLv, larLv, positions, from, preTagged).pvs.entries
      ensures PlaceCopies(acc, penLv, larLv, positions, from, preTagged).pvs.entries[k] == acc.pvs.entries[k]
    {
      PlaceCopiesKeepsVolume(acc, penLv, larLv, positions, from, preTagged, k);
    }
    forall k | k in acc.tags && k !in CopyNames(from, |positions|)
      ensures k in PlaceCopies(acc, penLv, larLv, positions, from, preTagged).tags
      ensures PlaceCopies(acc, penLv, larLv, positions, from, preTagged).tags[k] == acc.tags[k]
    {
      PlaceCopiesKeepsTag(acc, penLv, larLv, positions, from, preTagged, k);
    }
  }

  /** The first copy of the loop survives the rest of it. */
  lemma PlaceCopiesPlacedFirst(acc: Placement, penLv: LogicalVolume, larLv: LogicalVolume,
      positions: seq<Vec3>, from: nat, preTagged: bool)
    requires Valid(acc.pvs)
    requires positions != []
    ensures CopyName(from) in PlaceCopies(acc, penLv, larLv, positions, from, preTagged).pvs.entries
    ensures PlaceCopies(acc, penLv, larLv, positions, from, preTagged).pvs.entries[CopyName(from)]
         == CopyVolume(penLv, larLv, positions[0], from)
  {
    var next := PlaceOne(acc, penLv, larLv, positions[0], from, preTagged);
    PlaceOneSpec(acc, penLv, larLv, positions[0], from, preTagged);
    CopyNamesSplit(from, |positions|);
    PlaceCopiesKeepsVolume(next, penLv, larLv, positions[1..], from + 1, preTagged, CopyName(from));
  }

  /** Every copy is registered under its name at its position. */
  lemma {:induction false} PlaceCopiesPlaced(acc: Placement, penLv: LogicalVolume, larLv: LogicalVolume,
      positions: seq<Vec3>, from: nat, preTagged: bool, n: nat)
    requires Valid(acc.pvs)
    requires from <= n < from + |positions|
    ensures CopyPlaced(PlaceCopies(acc, penLv, larLv, positions, from, preTagged), penLv, larLv, positions[n - from], n)
    decreases |positions|
  {
    var next := PlaceOne(acc, penLv, larLv, positions[0], from, preTagged);
    if n == from {
      PlaceCopiesPlacedFirst(acc, penLv, larLv, positions, from, preTagged);
    } else {
      PlaceCopiesPlaced(next, penLv, larLv, positions[1..], from + 1, preTagged, n);
      assert positions[1..][n - (from + 1)] == positions[n - from];
    }
  }

  /** When the fresh volumes carry no tag, every copy is tagged as a
      scintillator. */
  lemma {:induction false} PlaceCopiesTagged(acc: Placement, penLv: LogicalVolume, larLv: LogicalVolume,
      positions: seq<Vec3>, from: nat, preTagged: bool, n: nat)
    requires Valid(acc.pvs)
    requires from <= n < from + |positions| && !preTagged
    ensures CopyTagged(PlaceCopies(acc, penLv, larLv, positions, from, preTagged), n)
    decreases |positions|
  {
    var next := PlaceOne(acc, penLv, larLv, positions[0], from, preTagged);
    if n == from {
      PlaceOneSpec(acc, penLv, larLv, positions[0], from, preTagged);
      CopyNamesSplit(from, |positions|);
      PlaceCopiesKeepsTag(next, penLv, larLv, positions[1..], from + 1, preTagged, CopyName(from));
    } else {
      PlaceCopiesTagged(next, penLv, larLv, positions[1..], from + 1, preTagged, n);
    }
  }

  /** Copy `n` is registered under its name at `pos`, unrotated, placing
      the PEN volume in the argon volume. */
  ghost predicate CopyPlaced(r: Placement, penLv: LogicalVolume, larLv: LogicalVolume, pos: Vec3, n: nat) {
    CopyName(n) in r.pvs.entries && r.pvs.entries[CopyName(n)] == CopyVolume(penLv, larLv, pos, n)
  }

  /** Copy `n` carries the scintillator tag. */
  ghost predicate CopyTagged(r: Placement, n: nat) {
    CopyName(n) in r.tags && r.tags[CopyName(n)] == CopyTag()
  }

  /** The positions of the three copies. */
  function PenPositions(): seq<Vec3> {
    [Vec3(0.0, 0.0, 60.0), Vec3(0.0, 0.0, -90.0), Vec3(0.0, 0.0, 0.0)]
  }

  /** The three copies are named "PEN_stl_pv_0", "PEN_stl_pv_1" and "PEN_stl_pv_2". */
  lemma FirstThreeCopyNames()
    ensures CopyNames(0, 3) == {"PEN_stl_pv_0", "PEN_stl_pv_1", "PEN_stl_pv_2"}
  {
    assert CopyName(0) == "PEN_stl_pv_0";
    assert CopyName(1) == "PEN_stl_pv_1";
    assert CopyName(2) == "PEN_stl_pv_2";
  }

  /** The three copies placed after the tags `tags`. */
  function PlaceThree(pvs: Dict<PhysicalVolume>, tags: ActiveDetectors, penLv: LogicalVolume, larLv: LogicalVolume,
                      preTagged: bool): (r: Placement)
    requires Valid(pvs)
    ensures Valid(r.pvs)
    ensures r.pvs.entries.Keys == pvs.entries.Keys + CopyNames(0, 3)
    ensures forall k :: k in pvs.entries && k !in CopyNames(0, 3) ==> r.pvs.entries[k] == pvs.entries[k]
    ensures forall i :: 0 <= i < 3 ==> CopyPlaced(r, penLv, larLv, PenPositions()[i], i)
    ensures !preTagged ==> r.tags.Keys == tags.Keys + CopyNames(0, 3)
    ensures !preTagged ==> forall i :: 0 <= i < 3 ==> CopyTagged(r, i)
    ensures preTagged ==> r.tags == tags
  {
    var acc := Placement(pvs, tags);
    PlaceCopiesKeys(acc, penLv, larLv, PenPositions(), 0, preTagged);
    PlaceCopiesKeeps(acc, penLv, larLv, PenPositions(), 0, preTagged);
    var placed := PlaceCopies(acc, penLv, larLv, PenPositions(), 0, preTagged);
    forall i | 0 <= i < 3
      ensures CopyPlaced(placed, penLv, larLv, PenPositions()[i], i)
      ensures !preTagged ==> CopyTagged(placed, i)
    {
      PlaceCopiesPlaced(acc, penLv, larLv, PenPositions(), 0, preTagged, i);
      if !preTagged {
        PlaceCopiesTagged(acc, penLv, larLv, PenPositions(), 0, preTagged, i);
      }
      assert 0 + i == i;
    }
    placed
  }

  /** The placement step: pick the first mesh-derived logical volume, look up
      "LAr_lv" and "World_lv" in the merged registry, then place the three
      copies and tag those the library reports untagged. Errors come in the
      order the script raises them. */
  function PlaceStlPen(merged: Registry, stl: Registry, tags: ActiveDetectors, preTagged: bool)
    : (r: Result<Placement, MergeError>)
    requires Valid(merged.pvs)
    ensures r.Ok? <==> stl.lvs.keys != [] && stl.lvs.keys[0] in stl.lvs.entries
                       && "LAr_lv" in merged.lvs.entries && "World_lv" in merged.lvs.entries
    ensures stl.lvs.keys == [] ==> r == Err(NoStlLogicalVolume)
    ensures stl.lvs.keys != [] && stl.lvs.keys[0] in stl.lvs.entries && "LAr_lv" !in merged.lvs.entries
      ==> r == Err(LogicalVolumeNotFound("LAr_lv"))
    ensures stl.lvs.keys != [] && stl.lvs.keys[0] in stl.lvs.entries && "LAr_lv" in merged.lvs.entries
            && "World_lv" !in merged.lvs.entries
      ==> r == Err(LogicalVolumeNotFound("World_lv"))
    ensures r.Ok? ==> Valid(r.value.pvs)
    ensures r.Ok? ==> r.value.pvs.entries.Keys == merged.pvs.entries.Keys + CopyNames(0, 3)
    ensures r.Ok? ==> forall k :: k in merged.pvs.entries && k !in CopyNames(0, 3) ==>
      r.value.pvs.entries[k] == merged.pvs.entries[k]
    ensures r.Ok? ==> forall i :: 0 <= i < 3 ==>
      CopyPlaced(r.value, stl.lvs.entries[stl.lvs.keys[0]], merged.lvs.entries["LAr_lv"], PenPositions()[i], i)
    ensures r.Ok? && !preTagged ==> r.value.tags.Keys == tags.Keys + CopyNames(0, 3)
    ensures r.Ok? && !preTagged ==> forall i :: 0 <= i < 3 ==> CopyTagged(r.value, i)
    ensures r.Ok? && preTagged ==> r.value.tags == tags
  {
    if stl.lvs.keys == [] then Err(NoStlLogicalVolume)
    else
      var pen := FindLogicalVolume(stl, stl.lvs.keys[0]);
      var lar := FindLogicalVolume(merged, "LAr_lv");
      var world := FindLogicalVolume(merged, "World_lv");
      if pen.Err? then Err(pen.error)
      else if lar.Err? then Err(lar.error)
      else if world.Err? then Err(world.error)
      else Ok(PlaceThree(merged.pvs, tags, pen.value, lar.value, preTagged))
  }

  /** Placing the copies into an already merged registry, starting with no
      tags set by the script. */
  function PlaceIntoMerged(merged: Registry, stl: Registry, preTagged: bool)
    : (r: Result<(Registry, ActiveDetectors), MergeError>)
    requires ValidRegistry(merged)
    ensures r.Ok? && !preTagged ==> r.value.1.Keys == CopyNames(0, 3)
    ensures r.Ok? && preTagged ==> r.value.1 == map[]
    ensures r.Ok? ==> ValidRegistry(r.value.0)
    ensures r.Ok? ==> r.value.0.pvs.entries.Keys == merged.pvs.entries.Keys + CopyNames(0, 3)
    ensures r.Ok? ==> r.value.0.lvs == merged.lvs
  {
    var placed := PlaceStlPen(merged, stl, map[], preTagged);
    if placed.Err? then Err(placed.error)
    else Ok((Registry(merged.defines, merged.materials, merged.solids, merged.lvs, placed.value.pvs), placed.value.tags))
  }

  /** The script end to end: merge, then place the copies in the merged
      registry. `preTagged` is the library's answer to whether a freshly
      built volume already has a `pygeom_active_detector` attribute. */
  function MergeAndPlace(remage: Registry, stl: Registry, preTagged: bool)
    : (r: Result<(Registry, ActiveDetectors), MergeError>)
    requires ValidRegistry(remage) && ValidRegistry(stl)
    ensures r.Ok? && !preTagged ==> r.value.1.Keys == CopyNames(0, 3)
    ensures r.Ok? && preTagged ==> r.value.1 == map[]
  {
    PlaceIntoMerged(MergeRegistries(remage, stl), stl, preTagged)
  }

  /** The run succeeds exactly when the mesh-derived registry has a logical
      volume and the two registries together have "LAr_lv" and "World_lv". */
  lemma MergeAndPlaceSucceeds(remage: Registry, stl: Registry, preTagged: bool)
    requires ValidRegistry(remage) && ValidRegistry(stl)
    ensures MergeAndPlace(remage, stl, preTagged).Ok? <==>
      (stl.lvs.keys != [] && "LAr_lv" in remage.lvs.entries.Keys + stl.lvs.entries.Keys
       && "World_lv" in remage.lvs.entries.Keys + stl.lvs.entries.Keys)
  {
  }

  /** A successful run leaves a well-formed registry whose volume dict holds
      both registries' volumes and the three copies. */
  lemma MergeAndPlaceRegistry(remage: Registry, stl: Registry, preTagged: bool)
    requires ValidRegistry(remage) && ValidRegistry(stl)
    ensures MergeAndPlace(remage, stl, preTagged).Ok? ==> ValidRegistry(MergeAndPlace(remage, stl, preTagged).value.0)
    ensures MergeAndPlace(remage, stl, preTagged).Ok? ==>
      MergeAndPlace(remage, stl, preTagged).value.0.pvs.entries.Keys
        == remage.pvs.entries.Keys + stl.pvs.entries.Keys + CopyNames(0, 3)
  {
  }
}
