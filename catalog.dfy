/** The powder specification catalogue and the resolution of the items an
    inspection of a powder requires (app.py `get_inspection_items`). */
module Catalog {
  import opened Common

  /** The `*_type` column of an analyte: '일상' (daily), '정기' (periodic),
      '비활성' (inactive), or anything else, including null. */
  datatype Tag = Daily | Periodic | Inactive | Untagged

  /** The inspection type of a request: '일상점검' (daily), '정기점검'
      (periodic), or any other string. */
  datatype InspectionType = DailyCheck | PeriodicCheck | OtherCheck

  /** One analyte's `(min, max, type)` triple; a null bound is `None`. */
  datatype Bound = Bound(min: Option<real>, max: Option<real>, tag: Tag)

  /** The ten scalar analytes, in the order the item list is built. */
  datatype Analyte =
    | FlowRate | ApparentDensity | CContent | CuContent | Moisture | Ash
    | SinterChangeRate | SinterStrength | FormingStrength | FormingLoad

  const Analytes: seq<Analyte> :=
    [FlowRate, ApparentDensity, CContent, CuContent, Moisture, Ash,
     SinterChangeRate, SinterStrength, FormingStrength, FormingLoad]

  /** Position of an analyte in `Analytes`. */
  function Rank(a: Analyte): (k: nat)
    ensures k < |Analytes| && Analytes[k] == a
  {
    match a
    case FlowRate => 0
    case ApparentDensity => 1
    case CContent => 2
    case CuContent => 3
    case Moisture => 4
    case Ash => 5
    case SinterChangeRate => 6
    case SinterStrength => 7
    case FormingStrength => 8
    case FormingLoad => 9
  }

  /** The item name the client submits and the progress lists record. */
  function AnalyteName(a: Analyte): string
  {
    match a
    case FlowRate => "FlowRate"
    case ApparentDensity => "ApparentDensity"
    case CContent => "CContent"
    case CuContent => "CuContent"
    case Moisture => "Moisture"
    case Ash => "Ash"
    case SinterChangeRate => "SinterChangeRate"
    case SinterStrength => "SinterStrength"
    case FormingStrength => "FormingStrength"
    case FormingLoad => "FormingLoad"
  }

  const ParticleSizeName: string := "ParticleSize"

  /** Item names identify analytes, and none is the particle-size name. */
  lemma AnalyteNamesDistinct(a: Analyte, b: Analyte)
    ensures AnalyteName(a) == AnalyteName(b) <==> a == b
    ensures AnalyteName(a) != ParticleSizeName
  {
    NameRoundTrip(a);
    NameRoundTrip(b);
    assert AnalyteNamed(ParticleSizeName) == None;
  }

  /** Looking an analyte's own name up finds that analyte. */
  lemma NameRoundTrip(a: Analyte)
    ensures AnalyteNamed(AnalyteName(a)) == Some(a)
  {
  }

  /** The analyte an item name stands for, if any. */
  function AnalyteNamed(name: string): (r: Option<Analyte>)
    ensures r.Some? ==> AnalyteName(r.value) == name
    ensures r.None? ==> forall a: Analyte :: AnalyteName(a) != name
  {
    if name == "FlowRate" then Some(FlowRate)
    else if name == "ApparentDensity" then Some(ApparentDensity)
    else if name == "CContent" then Some(CContent)
    else if name == "CuContent" then Some(CuContent)
    else if name == "Moisture" then Some(Moisture)
    else if name == "Ash" then Some(Ash)
    else if name == "SinterChangeRate" then Some(SinterChangeRate)
    else if name == "SinterStrength" then Some(SinterStrength)
    else if name == "FormingStrength" then Some(FormingStrength)
    else if name == "FormingLoad" then Some(FormingLoad)
    else None
  }

  /** The three analytes measured as weight pairs. */
  predicate WeightBased(a: Analyte)
  {
    a == ApparentDensity || a == Moisture || a == Ash
  }

  /** A `powder_spec` row. */
  datatype PowderSpec = PowderSpec(
    flowRate: Bound, apparentDensity: Bound, cContent: Bound, cuContent: Bound,
    moisture: Bound, ash: Bound, sinterChangeRate: Bound, sinterStrength: Bound,
    formingStrength: Bound, formingLoad: Bound,
    particleSizeType: Tag, category: string)

  /** The static table from analyte to its columns of the spec row. */
  function BoundOf(spec: PowderSpec, a: Analyte): Bound
  {
    match a
    case FlowRate => spec.flowRate
    case ApparentDensity => spec.apparentDensity
    case CContent => spec.cContent
    case CuContent => spec.cuContent
    case Moisture => spec.moisture
    case Ash => spec.ash
    case SinterChangeRate => spec.sinterChangeRate
    case SinterStrength => spec.sinterStrength
    case FormingStrength => spec.formingStrength
    case FormingLoad => spec.formingLoad
  }

  /** A `particle_size` row: one mesh bucket of a powder. */
  datatype MeshSpec = MeshSpec(meshSize: string, min: real, max: real)

  /** The two specification tables, keyed by powder name; the mesh rows of a
      powder are in the order the table returns them. */
  datatype SpecTables = SpecTables(specs: map<string, PowderSpec>, meshes: map<string, seq<MeshSpec>>)

  function MeshRows(cat: SpecTables, powder: string): seq<MeshSpec>
  {
    if powder in cat.meshes then cat.meshes[powder] else []
  }

  /** A required inspection item: a scalar analyte with its bounds, or the
      particle-size composite with all its mesh buckets. */
  datatype Item =
    | Scalar(analyte: Analyte, min: Option<real>, max: Option<real>)
    | ParticleSize(meshSpecs: seq<MeshSpec>)

  function ItemName(item: Item): string
  {
    match item
    case Scalar(a, _, _) => AnalyteName(a)
    case ParticleSize(_) => ParticleSizeName
  }

  function Names(items: seq<Item>): (names: seq<string>)
    ensures |names| == |items|
    ensures forall i :: 0 <= i < |items| ==> names[i] == ItemName(items[i])
  {
    if items == [] then [] else Names(items[..|items| - 1]) + [ItemName(items[|items| - 1])]
  }

  /** The type rule: a daily inspection takes daily-tagged items, a periodic
      one takes daily- and periodic-tagged items, any other type takes none. */
  predicate TypeIncludes(itype: InspectionType, tag: Tag)
  {
    (itype == DailyCheck && tag == Daily)
    || (itype == PeriodicCheck && (tag == Daily || tag == Periodic))
  }

  /** A scalar analyte is required when the type rule admits its tag and it
      has at least one bound. */
  predicate ScalarIncluded(b: Bound, itype: InspectionType)
  {
    TypeIncludes(itype, b.tag) && (b.min.Some? || b.max.Some?)
  }

  /** The particle-size item is required when its tag is set and admitted by
      the type rule and the powder has at least one mesh row. (An unset or
      empty tag is never admitted, so the tag's truthiness test is implied.) */
  predicate ParticleIncluded(spec: PowderSpec, rows: seq<MeshSpec>, itype: InspectionType)
  {
    TypeIncludes(itype, spec.particleSizeType) && |rows| > 0
  }

  function ScalarItem(spec: PowderSpec, a: Analyte): Item
  {
    Scalar(a, BoundOf(spec, a).min, BoundOf(spec, a).max)
  }

  /** The scalar items the filter keeps from a prefix of `Analytes`. */
  function ScalarItems(spec: PowderSpec, itype: InspectionType, s: seq<Analyte>): seq<Item>
  {
    if s == [] then []
    else
      var a := s[|s| - 1];
      ScalarItems(spec, itype, s[..|s| - 1])
        + (if ScalarIncluded(BoundOf(spec, a), itype) then [ScalarItem(spec, a)] else [])
  }

  /** Specification of the resolved item list. */
  function RequiredItems(cat: SpecTables, powder: string, itype: InspectionType): seq<Item>
  {
    if powder !in cat.specs then []
    else
      var spec := cat.specs[powder];
      var rows := MeshRows(cat, powder);
      ScalarItems(spec, itype, Analytes)
        + (if ParticleIncluded(spec, rows, itype) then [ParticleSize(rows)] else [])
  }

  /** `get_inspection_items`: filter the ten analytes in order, then append
      the particle-size composite. An unknown powder gives no items. */
  method ResolveItems(cat: SpecTables, powder: string, itype: InspectionType) returns (items: seq<Item>)
    ensures items == RequiredItems(cat, powder, itype)
  {
    if powder !in cat.specs {
      return [];
    }
    var spec := cat.specs[powder];
    items := [];
    var i := 0;
    while i < |Analytes|
      invariant 0 <= i <= |Analytes|
      invariant items == ScalarItems(spec, itype, Analytes[..i])
    {
      var a := Analytes[i];
      var b := BoundOf(spec, a);
      if itype == DailyCheck && b.tag == Daily {
        if b.min.Some? || b.max.Some? {
          items := items + [ScalarItem(spec, a)];
        }
      } else if itype == PeriodicCheck && (b.tag == Daily || b.tag == Periodic) {
        if b.min.Some? || b.max.Some? {
          items := items + [ScalarItem(spec, a)];
        }
      }
      assert Analytes[..i + 1][..i] == Analytes[..i];
      i := i + 1;
    }
    assert Analytes[..i] == Analytes;
    var rows := MeshRows(cat, powder);
    if spec.particleSizeType != Untagged && |rows| > 0 {
      if itype == DailyCheck && spec.particleSizeType == Daily {
        items := items + [ParticleSize(rows)];
      } else if itype == PeriodicCheck && (spec.particleSizeType == Daily || spec.particleSizeType == Periodic) {
        items := items + [ParticleSize(rows)];
      }
    }
  }

  // ---------------------------------------------------------------------
  // Properties of the resolved list
  // ---------------------------------------------------------------------

  lemma {:induction false} ScalarItemsMembers(spec: PowderSpec, itype: InspectionType, s: seq<Analyte>, item: Item)
    ensures item in ScalarItems(spec, itype, s) <==>
      item.Scalar? && item.analyte in s && ScalarIncluded(BoundOf(spec, item.analyte), itype)
      && item == ScalarItem(spec, item.analyte)
  {
    if s != [] {
      ScalarItemsMembers(spec, itype, s[..|s| - 1], item);
      assert s == s[..|s| - 1] + [s[|s| - 1]];
    }
  }

  /** A scalar analyte is required iff the powder is known, its tag passes
      the type rule and at least one of its bounds is set. */
  lemma ScalarRequiredIff(cat: SpecTables, powder: string, itype: InspectionType, a: Analyte)
    ensures AnalyteName(a) in Names(RequiredItems(cat, powder, itype)) <==>
      powder in cat.specs && ScalarIncluded(BoundOf(cat.specs[powder], a), itype)
  {
    var items := RequiredItems(cat, powder, itype);
    if powder in cat.specs {
      var spec := cat.specs[powder];
      ScalarItemsMembers(spec, itype, Analytes, ScalarItem(spec, a));
      assert a == Analytes[Rank(a)];
      if AnalyteName(a) in Names(items) {
        var k :| 0 <= k < |items| && Names(items)[k] == AnalyteName(a);
        var item := items[k];
        if item.Scalar? {
          AnalyteNamesDistinct(item.analyte, a);
          ScalarItemsMembers(spec, itype, Analytes, item);
        } else {
          AnalyteNamesDistinct(a, a);
        }
      }
      if ScalarIncluded(BoundOf(spec, a), itype) {
        var scalars := ScalarItems(spec, itype, Analytes);
        var k :| 0 <= k < |scalars| && scalars[k] == ScalarItem(spec, a);
        assert Names(items)[k] == AnalyteName(a);
      }
    }
  }

  /** The particle-size composite is required iff the powder is known, its
      particle tag passes the type rule and it has at least one mesh row; when
      it is, it carries all the mesh rows and is the last item. */
  lemma ParticleRequiredIff(cat: SpecTables, powder: string, itype: InspectionType)
    ensures ParticleSizeName in Names(RequiredItems(cat, powder, itype)) <==>
      powder in cat.specs && ParticleIncluded(cat.specs[powder], MeshRows(cat, powder), itype)
    ensures ParticleSizeName in Names(RequiredItems(cat, powder, itype)) ==>
      var items := RequiredItems(cat, powder, itype);
      items[|items| - 1] == ParticleSize(MeshRows(cat, powder))
  {
    var items := RequiredItems(cat, powder, itype);
    if powder in cat.specs {
      var spec := cat.specs[powder];
      var scalars := ScalarItems(spec, itype, Analytes);
      if ParticleSizeName in Names(items) {
        var k :| 0 <= k < |items| && Names(items)[k] == ParticleSizeName;
        if k < |scalars| {
          ScalarItemsMembers(spec, itype, Analytes, scalars[k]);
          AnalyteNamesDistinct(scalars[k].analyte, scalars[k].analyte);
          assert false;
        }
      }
      if ParticleIncluded(spec, MeshRows(cat, powder), itype) {
        assert Names(items)[|items| - 1] == ParticleSizeName;
      }
    }
  }

  /** An unknown powder, or an inspection type that is neither daily nor
      periodic, yields no items. */
  lemma NoItemsWhenUnknown(cat: SpecTables, powder: string, itype: InspectionType)
    requires powder !in cat.specs || itype == OtherCheck
    ensures RequiredItems(cat, powder, itype) == []
  {
    if powder in cat.specs {
      NoScalarsForOther(cat.specs[powder], Analytes);
    }
  }

  lemma {:induction false} NoScalarsForOther(spec: PowderSpec, s: seq<Analyte>)
    ensures ScalarItems(spec, OtherCheck, s) == []
  {
    if s != [] { NoScalarsForOther(spec, s[..|s| - 1]); }
  }

  /** Every item of a daily inspection is also an item of the periodic
      inspection of the same powder, with the same bounds. */
  lemma DailyWithinPeriodic(cat: SpecTables, powder: string, item: Item)
    requires item in RequiredItems(cat, powder, DailyCheck)
    ensures item in RequiredItems(cat, powder, PeriodicCheck)
  {
    var spec := cat.specs[powder];
    var rows := MeshRows(cat, powder);
    var daily := ScalarItems(spec, DailyCheck, Analytes);
    var periodic := ScalarItems(spec, PeriodicCheck, Analytes);
    if item in daily {
      ScalarItemsMembers(spec, DailyCheck, Analytes, item);
      ScalarItemsMembers(spec, PeriodicCheck, Analytes, item);
    } else {
      assert item == ParticleSize(rows);
    }
  }

  /** Scalar items keep the order of `Analytes`, with no analyte twice. */
  predicate InAnalyteOrder(items: seq<Item>)
  {
    forall i, j :: 0 <= i < j < |items| && items[i].Scalar? && items[j].Scalar? ==>
      Rank(items[i].analyte) < Rank(items[j].analyte)
  }

  lemma {:induction false} ScalarItemsOrdered(spec: PowderSpec, itype: InspectionType, n: nat)
    requires n <= |Analytes|
    ensures InAnalyteOrder(ScalarItems(spec, itype, Analytes[..n]))
  {
    if n > 0 {
      var s := Analytes[..n];
      var a := Analytes[n - 1];
      assert s[..|s| - 1] == Analytes[..n - 1] && s[|s| - 1] == a;
      ScalarItemsOrdered(spec, itype, n - 1);
      ScalarItemsBelow(spec, itype, n - 1);
      RankOfPosition(n - 1);
      var prev := ScalarItems(spec, itype, Analytes[..n - 1]);
      var tail := if ScalarIncluded(BoundOf(spec, a), itype) then [ScalarItem(spec, a)] else [];
      var items := prev + tail;
      assert ScalarItems(spec, itype, s) == items;
      forall i, j | 0 <= i < j < |items| && items[i].Scalar? && items[j].Scalar?
        ensures Rank(items[i].analyte) < Rank(items[j].analyte)
      {
        if j >= |prev| {
          assert items[i] == prev[i] && prev[i] in prev;
          assert items[j] == ScalarItem(spec, a);
        } else {
          assert items[i] == prev[i] && items[j] == prev[j];
        }
      }
    }
  }

  /** Only analytes of the prefix are kept. */
  lemma ScalarItemsBelow(spec: PowderSpec, itype: InspectionType, n: nat)
    requires n <= |Analytes|
    ensures forall item :: item in ScalarItems(spec, itype, Analytes[..n]) ==>
      item.Scalar? && Rank(item.analyte) < n
  {
    forall item | item in ScalarItems(spec, itype, Analytes[..n])
      ensures item.Scalar? && Rank(item.analyte) < n
    {
      ScalarItemsMembers(spec, itype, Analytes[..n], item);
      var k :| 0 <= k < n && Analytes[..n][k] == item.analyte;
      RankOfPosition(k);
    }
  }

  lemma RankOfPosition(k: nat)
    requires k < |Analytes|
    ensures Rank(Analytes[k]) == k
  {
  }

  /** The resolved list is in the fixed order: scalar analytes in table order,
      then the particle-size composite, which only ever comes last; so no
      name appears twice. */
  lemma RequiredItemsOrdered(cat: SpecTables, powder: string, itype: InspectionType)
    ensures var items := RequiredItems(cat, powder, itype);
      InAnalyteOrder(items)
      && (forall i :: 0 <= i < |items| - 1 ==> items[i].Scalar?)
      && (forall i, j :: 0 <= i < j < |items| ==> ItemName(items[i]) != ItemName(items[j]))
  {
    var items := RequiredItems(cat, powder, itype);
    if powder in cat.specs {
      var spec := cat.specs[powder];
      assert Analytes[..|Analytes|] == Analytes;
      ScalarItemsOrdered(spec, itype, |Analytes|);
      ScalarItemsBelow(spec, itype, |Analytes|);
      var scalars := ScalarItems(spec, itype, Analytes);
      assert forall i :: 0 <= i < |scalars| ==> items[i] == scalars[i] && scalars[i] in scalars;
      forall i, j | 0 <= i < j < |items| ensures ItemName(items[i]) != ItemName(items[j]) {
        if items[j].Scalar? {
          AnalyteNamesDistinct(items[i].analyte, items[j].analyte);
        } else {
          AnalyteNamesDistinct(items[i].analyte, items[i].analyte);
        }
      }
    }
  }
}
