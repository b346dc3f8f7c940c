/** What the scripts record about placed volumes on the side of the geometry
    library: the detector origins kept on the registry by
    `add_detector_origin`, and the `pygeom_active_detector` tag that marks a
    volume as sensitive. */
module Detectors {

  import opened Results

  /** A position or rotation triple as passed to a placement, in the
      numbers the script wrote (the unit tag is not kept). */
  datatype Vec3 = Vec3(x: real, y: real, z: real)

  /** A value of a metadata record: text, a number, or a nested record. */
  datatype MetaValue = Text(s: string) | Number(x: real) | Record(fields: map<string, MetaValue>)

  type Metadata = map<string, MetaValue>

  /** `meta[group][field]` where that is a number, `None` where Python
      would raise. */
  function NumberAt(meta: Metadata, group: string, field: string): Option<real> {
    if group in meta && meta[group].Record? && field in meta[group].fields && meta[group].fields[field].Number?
    then Some(meta[group].fields[field].x)
    else None
  }

  /** A `RemageDetectorInfo`: the detector category, its numeric identifier
      and its free-form metadata record. */
  datatype DetectorInfo = DetectorInfo(category: string, uid: int, metadata: Metadata)

  /** The record `{"xloc": .., "yloc": .., "zloc": ..}` stored per origin. */
  datatype Origin = Origin(xloc: real, yloc: real, zloc: real)

  /** A placed physical volume: its name, the logical volume it places, the
      mother logical volume, its rotation and its position. */
  datatype PhysicalVolume = PhysicalVolume(
    name: string, logical: string, mother: string, rotation: Vec3, position: Vec3)

  /** `add_detector_origin(name, pv, registry)`: the registry's origin map is
      created empty when the registry has none (`None` here), an existing one
      is kept, and the entry for `name` is then (over)written with the
      position's three components. */
  function AddDetectorOrigin(origins: Option<map<string, Origin>>, name: string, pv: PhysicalVolume)
    : (r: map<string, Origin>)
    ensures name in r
    ensures r[name].xloc == pv.position.x && r[name].yloc == pv.position.y && r[name].zloc == pv.position.z
    ensures origins.None? ==> r.Keys == {name}
    ensures origins.Some? ==> r.Keys == origins.value.Keys + {name}
    ensures origins.Some? ==> forall k :: k in origins.value && k != name ==> r[k] == origins.value[k]
  {
    var existing := if origins.Some? then origins.value else map[];
    existing[name := Origin(pv.position.x, pv.position.y, pv.position.z)]
  }

  function OriginOf(pv: PhysicalVolume): Origin {
    Origin(pv.position.x, pv.position.y, pv.position.z)
  }

  /** A second registration under the same name replaces the first. */
  lemma OriginLastWriteWins(origins: Option<map<string, Origin>>, name: string, first: PhysicalVolume, second: PhysicalVolume)
    ensures AddDetectorOrigin(Some(AddDetectorOrigin(origins, name, first)), name, second)
         == AddDetectorOrigin(origins, name, second)
  {
  }

  /** Registrations under different names commute. */
  lemma OriginsCommute(origins: Option<map<string, Origin>>, a: string, pa: PhysicalVolume, b: string, pb: PhysicalVolume)
    requires a != b
    ensures AddDetectorOrigin(Some(AddDetectorOrigin(origins, a, pa)), b, pb)
         == AddDetectorOrigin(Some(AddDetectorOrigin(origins, b, pb)), a, pa)
  {
  }

  /** One call `add_detector_origin(name, pv, registry)`. */
  datatype Registration = Registration(name: string, pv: PhysicalVolume)

  /** The registrations of `for pv in pvs: add_detector_origin(pv.name, pv, registry)`. */
  function ByOwnName(pvs: seq<PhysicalVolume>): (r: seq<Registration>)
    ensures |r| == |pvs|
    ensures forall i :: 0 <= i < |pvs| ==> r[i] == Registration(pvs[i].name, pvs[i])
  {
    seq(|pvs|, i requires 0 <= i < |pvs| => Registration(pvs[i].name, pvs[i]))
  }

  function RegisteredNames(regs: seq<Registration>): set<string> {
    set i | 0 <= i < |regs| :: regs[i].name
  }

  /** The origin map a registry has, or the empty one it would get. */
  function Existing(origins: Option<map<string, Origin>>): map<string, Origin> {
    if origins.Some? then origins.value else map[]
  }

  /** The registrations made one after the other. */
  function RegisterOrigins(origins: Option<map<string, Origin>>, regs: seq<Registration>)
    : Option<map<string, Origin>>
    decreases |regs|
  {
    if regs == [] then origins
    else RegisterOrigins(Some(AddDetectorOrigin(origins, regs[0].name, regs[0].pv)), regs[1..])
  }

  /** Three registrations in a row. */
  lemma RegisterThree(origins: Option<map<string, Origin>>, a: Registration, b: Registration, c: Registration)
    ensures RegisterOrigins(origins, [a, b, c])
         == Some(AddDetectorOrigin(Some(AddDetectorOrigin(Some(AddDetectorOrigin(origins, a.name, a.pv)), b.name, b.pv)), c.name, c.pv))
  {
    var o1 := Some(AddDetectorOrigin(origins, a.name, a.pv));
    var o2 := Some(AddDetectorOrigin(o1, b.name, b.pv));
    var o3 := Some(AddDetectorOrigin(o2, c.name, c.pv));
    assert [a, b, c][1..] == [b, c];
    assert [b, c][1..] == [c];
    assert [c][1..] == [];
    assert RegisterOrigins(o3, []) == o3;
    assert RegisterOrigins(o2, [c]) == o3;
    assert RegisterOrigins(o1, [b, c]) == o3;
  }

  /** Four registrations in a row. */
  lemma RegisterFour(origins: Option<map<string, Origin>>, a: Registration, b: Registration, c: Registration, d: Registration)
    ensures RegisterOrigins(origins, [a, b, c, d])
         == RegisterOrigins(Some(AddDetectorOrigin(origins, a.name, a.pv)), [b, c, d])
  {
    assert [a, b, c, d][1..] == [b, c, d];
  }

  lemma RegisteredNamesCons(regs: seq<Registration>)
    requires regs != []
    ensures RegisteredNames(regs) == {regs[0].name} + RegisteredNames(regs[1..])
  {
    forall n | n in RegisteredNames(regs) ensures n in {regs[0].name} + RegisteredNames(regs[1..]) {
      var i :| 0 <= i < |regs| && regs[i].name == n;
      if i > 0 { assert regs[1..][i - 1] == regs[i]; }
    }
    forall n | n in RegisteredNames(regs[1..]) ensures n in RegisteredNames(regs) {
      var i :| 0 <= i < |regs[1..]| && regs[1..][i].name == n;
      assert regs[i + 1].name == n;
    }
  }

  /** Registering adds exactly the registered names and leaves the entries of
      every other name as they were. */
  lemma {:induction false} RegisterOriginsKeys(origins: Option<map<string, Origin>>, regs: seq<Registration>)
    ensures regs == [] ==> RegisterOrigins(origins, regs) == origins
    ensures regs != [] ==> RegisterOrigins(origins, regs).Some?
    ensures regs != [] ==> RegisterOrigins(origins, regs).value.Keys == Existing(origins).Keys + RegisteredNames(regs)
    ensures regs != [] ==> forall k :: k in Existing(origins) && k !in RegisteredNames(regs) ==>
      RegisterOrigins(origins, regs).value[k] == Existing(origins)[k]
    decreases |regs|
  {
    if regs != [] {
      var next := Some(AddDetectorOrigin(origins, regs[0].name, regs[0].pv));
      RegisterOriginsKeys(next, regs[1..]);
      RegisteredNamesCons(regs);
    }
  }

  /** No later registration uses the name of registration `i`. */
  ghost predicate LastWithName(regs: seq<Registration>, i: int)
    requires 0 <= i < |regs|
  {
    forall j :: i < j < |regs| ==> regs[j].name != regs[i].name
  }

  /** Last write wins: a name's entry holds the position of the volume last
      registered under it. */
  lemma {:induction false} RegisterOriginsLastWins(origins: Option<map<string, Origin>>, regs: seq<Registration>, i: int)
    requires 0 <= i < |regs| && LastWithName(regs, i)
    ensures RegisterOrigins(origins, regs).Some?
    ensures regs[i].name in RegisterOrigins(origins, regs).value
    ensures RegisterOrigins(origins, regs).value[regs[i].name] == OriginOf(regs[i].pv)
    decreases |regs|
  {
    RegisterOriginsKeys(origins, regs);
    var next := Some(AddDetectorOrigin(origins, regs[0].name, regs[0].pv));
    if i == 0 {
      RegisterOriginsKeys(next, regs[1..]);
      if regs[1..] != [] {
        assert regs[0].name !in RegisteredNames(regs[1..]) by {
          forall j | 0 <= j < |regs[1..]| ensures regs[1..][j].name != regs[0].name {
            assert regs[1..][j] == regs[j + 1];
          }
        }
      }
    } else {
      assert LastWithName(regs[1..], i - 1) by {
        forall j | i - 1 < j < |regs[1..]| ensures regs[1..][j].name != regs[1..][i - 1].name {
          assert regs[1..][j] == regs[j + 1];
        }
      }
      RegisterOriginsLastWins(next, regs[1..], i - 1);
    }
  }

  /** Distinct names on a registry without origins: the origin map ends up
      with one entry per registration, holding that volume's position. */
  lemma {:induction false} DistinctOrigins(regs: seq<Registration>)
    requires forall i, j :: 0 <= i < j < |regs| ==> regs[i].name != regs[j].name
    requires regs != []
    ensures RegisterOrigins(None, regs).Some?
    ensures RegisterOrigins(None, regs).value.Keys == RegisteredNames(regs)
    ensures |RegisterOrigins(None, regs).value| == |regs|
    ensures forall i :: 0 <= i < |regs| ==> RegisterOrigins(None, regs).value[regs[i].name] == OriginOf(regs[i].pv)
  {
    RegisterOriginsKeys(None, regs);
    RegisteredNamesCard(regs);
    var r := RegisterOrigins(None, regs).value;
    assert |r| == |r.Keys|;
    forall i | 0 <= i < |regs| ensures r[regs[i].name] == OriginOf(regs[i].pv) {
      RegisterOriginsLastWins(None, regs, i);
    }
  }

  lemma {:induction false} RegisteredNamesCard(regs: seq<Registration>)
    requires forall i, j :: 0 <= i < j < |regs| ==> regs[i].name != regs[j].name
    ensures |RegisteredNames(regs)| == |regs|
  {
    if regs != [] {
      var init := regs[..|regs| - 1];
      RegisteredNamesCard(init);
      assert RegisteredNames(regs) == RegisteredNames(init) + {regs[|regs| - 1].name};
      assert regs[|regs| - 1].name !in RegisteredNames(init);
    }
  }

  /** The active-detector tags of one script, keyed by volume name. */
  type ActiveDetectors = map<string, DetectorInfo>

  /** `volume.pygeom_active_detector = info`: the last assignment wins and
      no other volume's tag changes. */
  function SetActiveDetector(tags: ActiveDetectors, volume: string, info: DetectorInfo): (r: ActiveDetectors)
    ensures r.Keys == tags.Keys + {volume}
    ensures r[volume] == info
    ensures forall v :: v in tags && v != volume ==> r[v] == tags[v]
  {
    tags[volume := info]
  }

  /** The identifiers of the tagged volumes are pairwise distinct. */
  ghost predicate DistinctIds(tags: ActiveDetectors) {
    forall a, b :: a in tags && b in tags && a != b ==> tags[a].uid != tags[b].uid
  }

  /** Identifiers that index a list of names, each volume's identifier
      pointing back at its own name, are pairwise distinct. */
  lemma DistinctByInverse(tags: ActiveDetectors, names: seq<string>)
    requires forall v :: v in tags ==> 1 <= tags[v].uid <= |names| && names[tags[v].uid - 1] == v
    ensures DistinctIds(tags)
  {
    forall a, b | a in tags && b in tags && a != b ensures tags[a].uid != tags[b].uid {
      assert names[tags[a].uid - 1] == a && names[tags[b].uid - 1] == b;
    }
  }

  /** Four volumes numbered 1 to 4 carry distinct identifiers. */
  lemma DistinctFour(tags: ActiveDetectors, a: string, b: string, c: string, d: string)
    requires tags.Keys == {a, b, c, d}
    requires tags[a].uid == 1 && tags[b].uid == 2 && tags[c].uid == 3 && tags[d].uid == 4
    ensures DistinctIds(tags)
  {
    DistinctByInverse(tags, [a, b, c, d]);
  }

  /** `if not hasattr(pv, "pygeom_active_detector"): pv.pygeom_active_detector = info`.
      Whether the attribute is present is the library's answer, passed in as
      `hasTag`: when present nothing is recorded, otherwise the volume is
      tagged with `info`. Other volumes' tags never change. */
  function AttachIfAbsent(tags: ActiveDetectors, volume: string, hasTag: bool, info: DetectorInfo)
    : (r: ActiveDetectors)
    ensures hasTag ==> r == tags
    ensures !hasTag ==> r.Keys == tags.Keys + {volume} && r[volume] == info
    ensures forall v :: v in tags && v != volume ==> v in r && r[v] == tags[v]
  {
    if hasTag then tags else SetActiveDetector(tags, volume, info)
  }

  /** Metadata `{"name": name}`, the record most scripts attach. */
  function NameMeta(name: string): Metadata {
    map["name" := Text(name)]
  }
}
