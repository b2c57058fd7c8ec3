/** The per-(powder, lot) inspection state: the `inspection_progress` and
    `inspection_result` tables and the endpoints that change them
    (app.py `start_inspection`, `save_inspection_item`, `save_particle_size`,
    `check_spec`, `update_progress`, `update_final_result`,
    `delete_incomplete_inspection`, `delete_inspection`). */
module Inspection {
  import opened Common
  import opened Catalog
  import opened Evaluator
  import opened Results

  datatype LotKey = LotKey(powder: string, lot: string)

  /** An `inspection_progress` row; `completed` and `total` are the decoded
      JSON lists of item names. */
  datatype ProgressRow = ProgressRow(
    inspectionType: InspectionType, inspector: string,
    completed: seq<string>, total: seq<string>, progress: string, category: string)

  /** The `'<k>/<n>'` progress text. */
  function ProgressText(k: nat, n: nat): string
  {
    NatToString(k) + "/" + NatToString(n)
  }

  predicate WellFormedRows(results: map<LotKey, ResultRow>)
  {
    forall k :: k in results ==> WellFormed(results[k]) && results[k].category == Incoming
  }

  // ---------------------------------------------------------------------
  // Bound check against the recorded inspection type (app.py:660-695)
  // ---------------------------------------------------------------------

  /** The inspection type `check_spec` reads: from the progress row, else
      from the result row. */
  function RecordedType(progress: map<LotKey, ProgressRow>, results: map<LotKey, ResultRow>, key: LotKey): Option<InspectionType>
  {
    if key in progress then Some(progress[key].inspectionType)
    else if key in results then Some(results[key].inspectionType)
    else None
  }

  function ItemMin(item: Item): Option<real>
  {
    if item.Scalar? then item.min else None
  }

  function ItemMax(item: Item): Option<real>
  {
    if item.Scalar? then item.max else None
  }

  /** The verdict of the item loop over a resolved list. */
  function ItemsVerdict(items: seq<Item>, name: string, avg: real): Verdict
  {
    if items == [] then Pass
    else if ItemsVerdict(items[..|items| - 1], name, avg) == Fail then Fail
    else
      var item := items[|items| - 1];
      if ItemName(item) == name && Judge(ItemMin(item), ItemMax(item), avg) == Fail then Fail else Pass
  }

  function SpecVerdict(cat: SpecTables, progress: map<LotKey, ProgressRow>, results: map<LotKey, ResultRow>,
                       key: LotKey, name: string, avg: real): Verdict
  {
    match RecordedType(progress, results, key)
    case None => Pass
    case Some(t) => ItemsVerdict(RequiredItems(cat, key.powder, t), name, avg)
  }

  /** The item is the submitted one and the average is outside its bounds. */
  predicate FailsOn(item: Item, name: string, avg: real)
  {
    ItemName(item) == name && Judge(ItemMin(item), ItemMax(item), avg) == Fail
  }

  lemma {:induction false} ItemsVerdictFailIff(items: seq<Item>, name: string, avg: real)
    ensures ItemsVerdict(items, name, avg) == Fail <==>
      exists i :: 0 <= i < |items| && FailsOn(items[i], name, avg)
  {
    if items != [] {
      var init := items[..|items| - 1];
      ItemsVerdictFailIff(init, name, avg);
      if exists i :: 0 <= i < |items| && FailsOn(items[i], name, avg) {
        var i :| 0 <= i < |items| && FailsOn(items[i], name, avg);
        if i < |init| {
          assert init[i] == items[i];
        }
      }
      if ItemsVerdict(items, name, avg) == Fail {
        if ItemsVerdict(init, name, avg) == Fail {
          var i :| 0 <= i < |init| && FailsOn(init[i], name, avg);
          assert items[i] == init[i];
        } else {
          assert FailsOn(items[|init|], name, avg);
        }
      }
    }
  }

  /** What the bound check means: with a recorded type, a submitted analyte
      is judged against its own bounds exactly when the type requires it;
      every other case, the particle-size name included, is a PASS. */
  lemma SpecVerdictMeaning(cat: SpecTables, progress: map<LotKey, ProgressRow>, results: map<LotKey, ResultRow>,
                           key: LotKey, name: string, avg: real)
    ensures SpecVerdict(cat, progress, results, key, name, avg) ==
      match RecordedType(progress, results, key)
      case None => Pass
      case Some(t) =>
        match AnalyteNamed(name)
        case None => Pass
        case Some(a) =>
          if key.powder in cat.specs && ScalarIncluded(BoundOf(cat.specs[key.powder], a), t)
          then Judge(BoundOf(cat.specs[key.powder], a).min, BoundOf(cat.specs[key.powder], a).max, avg)
          else Pass
  {
    match RecordedType(progress, results, key)
    case None =>
    case Some(t) =>
      match AnalyteNamed(name)
      case None => UnknownNamePasses(cat, key.powder, t, name, avg);
      case Some(a) =>
        if key.powder in cat.specs && ScalarIncluded(BoundOf(cat.specs[key.powder], a), t) {
          RequiredAnalyteJudged(cat, key.powder, t, a, avg);
        } else {
          ScalarRequiredIff(cat, key.powder, t, a);
          ItemsVerdictFailIff(RequiredItems(cat, key.powder, t), AnalyteName(a), avg);
          AnalyteNamesDistinct(a, a);
        }
  }

  /** A name that is no analyte (the particle-size name included) passes. */
  lemma UnknownNamePasses(cat: SpecTables, powder: string, t: InspectionType, name: string, avg: real)
    requires AnalyteNamed(name).None?
    ensures ItemsVerdict(RequiredItems(cat, powder, t), name, avg) == Pass
  {
    var items := RequiredItems(cat, powder, t);
    ItemsVerdictFailIff(items, name, avg);
    forall i | 0 <= i < |items| && ItemName(items[i]) == name
      ensures Judge(ItemMin(items[i]), ItemMax(items[i]), avg) == Pass
    {
      if items[i].Scalar? {
        assert AnalyteName(items[i].analyte) == name;
      }
    }
  }

  /** A required analyte is judged against its own bounds. */
  lemma RequiredAnalyteJudged(cat: SpecTables, powder: string, t: InspectionType, a: Analyte, avg: real)
    requires powder in cat.specs && ScalarIncluded(BoundOf(cat.specs[powder], a), t)
    ensures ItemsVerdict(RequiredItems(cat, powder, t), AnalyteName(a), avg) ==
      Judge(BoundOf(cat.specs[powder], a).min, BoundOf(cat.specs[powder], a).max, avg)
  {
    var items := RequiredItems(cat, powder, t);
    var spec := cat.specs[powder];
    ItemsVerdictFailIff(items, AnalyteName(a), avg);
    RequiredItemsOrdered(cat, powder, t);
    assert ScalarItem(spec, a) in items by {
      ScalarItemsMembers(spec, t, Analytes, ScalarItem(spec, a));
      assert Analytes[Rank(a)] == a;
    }
    var j :| 0 <= j < |items| && items[j] == ScalarItem(spec, a);
    assert ItemName(items[j]) == AnalyteName(a);
    assert forall i :: 0 <= i < |items| && FailsOn(items[i], AnalyteName(a), avg) ==> i == j;
    assert FailsOn(items[j], AnalyteName(a), avg) <==>
      Judge(BoundOf(spec, a).min, BoundOf(spec, a).max, avg) == Fail;
  }

  // ---------------------------------------------------------------------
  // Progress (app.py:967-1006)
  // ---------------------------------------------------------------------

  /** The progress row after a submission of `name`: appended unless
      already present, with the count text recomputed. */
  function Advance(row: ProgressRow, name: string): (r: ProgressRow)
  {
    var completed := if name in row.completed then row.completed else row.completed + [name];
    row.(completed := completed, progress := ProgressText(|completed|, |row.total|))
  }

  /** The row retires as soon as the counts meet, whatever the names. */
  predicate Retires(row: ProgressRow)
  {
    |row.completed| == |row.total|
  }

  function ProgressAfter(progress: map<LotKey, ProgressRow>, key: LotKey, name: string): map<LotKey, ProgressRow>
  {
    if key !in progress then progress
    else if Retires(Advance(progress[key], name)) then progress - {key}
    else progress[key := Advance(progress[key], name)]
  }

  /** `update_final_result`: the scanned verdict, if the row exists. */
  function Finalize(results: map<LotKey, ResultRow>, key: LotKey): map<LotKey, ResultRow>
  {
    if key in results then results[key := results[key].(finalResult := Some(FinalVerdict(results[key])))]
    else results
  }

  /** Finalization runs when there was no progress row, or when it retires. */
  function ResultsAfterProgress(progress: map<LotKey, ProgressRow>, results: map<LotKey, ResultRow>,
                                key: LotKey, name: string): map<LotKey, ResultRow>
  {
    if key !in progress || Retires(Advance(progress[key], name)) then Finalize(results, key) else results
  }

  predicate Distinct(s: seq<string>)
  {
    forall i, j :: 0 <= i < j < |s| ==> s[i] != s[j]
  }

  /** Re-submitting an item changes nothing, the count included. */
  lemma AdvanceIdempotent(row: ProgressRow, name: string)
    ensures Advance(Advance(row, name), name) == Advance(row, name)
    ensures name in Advance(row, name).completed
    ensures |Advance(row, name).completed| == |row.completed| + (if name in row.completed then 0 else 1)
  {
    var c := Advance(row, name).completed;
    if name !in row.completed {
      assert c[|c| - 1] == name;
    }
  }

  /** The completed list never holds a name twice. */
  lemma AdvanceKeepsDistinct(row: ProgressRow, name: string)
    requires Distinct(row.completed)
    ensures Distinct(Advance(row, name).completed)
  {
    var c := Advance(row, name).completed;
    if name !in row.completed {
      forall i, j | 0 <= i < j < |c| ensures c[i] != c[j] {
        if j == |c| - 1 {
          assert c[i] == row.completed[i];
        }
      }
    }
  }

  lemma {:induction false} DistinctCard(s: seq<string>)
    requires Distinct(s)
    ensures |set x | x in s| == |s|
  {
    if s != [] {
      var init := s[..|s| - 1];
      assert Distinct(init);
      DistinctCard(init);
      assert (set x | x in s) == (set x | x in init) + {s[|s| - 1]};
      assert s[|s| - 1] !in init;
    }
  }

  lemma SubsetCard(a: set<string>, b: set<string>)
    requires a <= b && |a| == |b|
    ensures a == b
  {
    var rest := b - a;
    assert b == a + rest;
    assert a * rest == {};
    assert |b| == |a| + |rest|;
    assert rest == {};
  }

  /** Under the intended use (only required names are submitted), the
      counts meet exactly when every required item has been completed. */
  lemma RetiresIffAllCompleted(row: ProgressRow)
    requires Distinct(row.completed) && Distinct(row.total)
    requires forall n :: n in row.completed ==> n in row.total
    ensures Retires(row) <==> forall n :: n in row.total ==> n in row.completed
  {
    var c := set x | x in row.completed;
    var t := set x | x in row.total;
    DistinctCard(row.completed);
    DistinctCard(row.total);
    assert c <= t;
    if Retires(row) {
      SubsetCard(c, t);
      forall n | n in row.total ensures n in row.completed {
        assert n in t;
      }
    }
    if forall n :: n in row.total ==> n in row.completed {
      assert t <= c;
      assert c == t;
    }
  }

  /** The append does not check membership in `total`: a name outside the
      required list counts, and the row can retire with a required item
      never submitted. */
  lemma PrematureRetirement()
    ensures var row := ProgressRow(DailyCheck, "", [], ["CContent", "FlowRate"], ProgressText(0, 2), Incoming);
      var after := Advance(Advance(row, "Ash"), "FlowRate");
      Retires(after) && "CContent" in after.total && "CContent" !in after.completed
  {
    var row := ProgressRow(DailyCheck, "", [], ["CContent", "FlowRate"], ProgressText(0, 2), Incoming);
    var r1 := Advance(row, "Ash");
    assert r1.completed == ["Ash"];
    assert "FlowRate" != "Ash";
    assert "FlowRate" !in r1.completed;
    var r2 := Advance(r1, "FlowRate");
    assert r2.completed == ["Ash", "FlowRate"];
    assert "CContent" != "Ash" && "CContent" != "FlowRate";
  }

  // ---------------------------------------------------------------------
  // One submission, as a value (app.py:377-417, app.py:582-658, app.py:697-892)
  // ---------------------------------------------------------------------

  /** The average an item submission computes, chosen by the item name;
      any name other than the three weight-pair analytes is averaged as a
      scalar. */
  function Average(name: string, values: seq<Raw>): Result<real>
  {
    match AnalyteNamed(name)
    case Some(a) => if WeightBased(a) then WeightAverage(a, values) else ScalarAverage(values)
    case None => ScalarAverage(values)
  }

  /** The row a write starts from: the existing row, else a fresh row
      seeded from the progress row, else with the daily type and the
      unassigned inspector. */
  function BaseRow(progress: map<LotKey, ProgressRow>, results: map<LotKey, ResultRow>, key: LotKey): (row: ResultRow)
    requires WellFormedRows(results)
    ensures WellFormed(row) && row.category == Incoming
  {
    if key in results then results[key]
    else if key in progress then NewRow(progress[key].inspectionType, progress[key].inspector)
    else NewRow(DailyCheck, Unassigned)
  }

  datatype Written = Written(average: real, verdict: Verdict, row: ResultRow)

  /** The outcome of `save_inspection_item` up to the progress update: the
      average, the verdict and the written row, or the error that made the
      request roll back. */
  function ItemWrite(cat: SpecTables, progress: map<LotKey, ProgressRow>, results: map<LotKey, ResultRow>,
                     key: LotKey, name: string, values: seq<Raw>): Result<Written>
    requires WellFormedRows(results)
  {
    match Average(name, values)
    case Err(e) => Err(e)
    case Ok(avg) =>
      var verdict := SpecVerdict(cat, progress, results, key, name, avg);
      match AnalyteNamed(name)
      case None => Err(UnknownItem)
      case Some(a) =>
        var base := BaseRow(progress, results, key);
        match AnalyteWrite(a, base.analytes[a], values, avg, verdict)
        case Err(e) => Err(e)
        case Ok(cols) => Ok(Written(avg, verdict, base.(analytes := base.analytes[a := cols])))
  }

  /** Only the submitted analyte's columns are written: every other column
      group, the particle-size summary, the final verdict, the type and the
      inspector are those of the row written to. */
  lemma OnlyItemColumnsChange(cat: SpecTables, progress: map<LotKey, ProgressRow>, results: map<LotKey, ResultRow>,
                              key: LotKey, name: string, values: seq<Raw>)
    requires WellFormedRows(results)
    requires ItemWrite(cat, progress, results, key, name, values).Ok?
    ensures AnalyteNamed(name).Some?
    ensures var a := AnalyteNamed(name).value;
      var base := BaseRow(progress, results, key);
      var w := ItemWrite(cat, progress, results, key, name, values).value;
      && w.average == Average(name, values).value
      && w.verdict == SpecVerdict(cat, progress, results, key, name, w.average)
      && WellFormed(w.row) && w.row.category == Incoming
      && (forall b: Analyte :: b != a ==> w.row.analytes[b] == base.analytes[b])
      && w.row.analytes[a].avg == Some(w.average) && w.row.analytes[a].result == Some(w.verdict)
      && w.row.meshes == base.meshes && w.row.particleSizeResult == base.particleSizeResult
      && w.row.finalResult == base.finalResult
      && w.row.inspectionType == base.inspectionType && w.row.inspector == base.inspector
  {
    var a := AnalyteNamed(name).value;
    var base := BaseRow(progress, results, key);
    var w := ItemWrite(cat, progress, results, key, name, values).value;
    AnalyteWriteShape(a, base.analytes[a], values, w.average, w.verdict);
  }

  /** A name without result columns, the particle-size name among them, is
      refused even when its values average, and nothing is written. */
  lemma UnknownItemRefused(cat: SpecTables, progress: map<LotKey, ProgressRow>, results: map<LotKey, ResultRow>,
                           key: LotKey, name: string, values: seq<Raw>)
    requires WellFormedRows(results) && AnalyteNamed(name).None?
    ensures ItemWrite(cat, progress, results, key, name, values).Err?
  {
  }

  /** The outcome of `save_particle_size` up to the progress update. */
  function ParticleWrite(progress: map<LotKey, ProgressRow>, results: map<LotKey, ResultRow>,
                         key: LotKey, payload: map<string, MeshEntry>): Result<(Verdict, ResultRow)>
    requires WellFormedRows(results)
  {
    var base := BaseRow(progress, results, key);
    var overall := if HasRejected(payload) then Fail else Pass;
    match MeshWritesUpTo(base.meshes, payload, |MeshIds|)
    case Err(e) => Err(e)
    case Ok(meshes) => Ok((overall, base.(meshes := meshes, particleSizeResult := Some(overall))))
  }

  /** A mesh group with no entry in the payload is written as FAIL, so the
      lot's final verdict is FAIL even when the particle-size summary (which
      only looks for rejected entries) is PASS. */
  lemma MissingMeshForcesFinalFail(progress: map<LotKey, ProgressRow>, results: map<LotKey, ResultRow>,
                                   key: LotKey, payload: map<string, MeshEntry>, m: MeshId)
    requires WellFormedRows(results)
    requires ParticleWrite(progress, results, key, payload).Ok?
    requires MeshKey(m) !in payload
    ensures ParticleWrite(progress, results, key, payload).value.1.meshes[m].result == Some(Fail)
    ensures FinalVerdict(ParticleWrite(progress, results, key, payload).value.1) == Fail
  {
    var base := BaseRow(progress, results, key);
    MeshWritesVerdicts(base.meshes, payload, |MeshIds|, m);
    var row := ParticleWrite(progress, results, key, payload).value.1;
    FinalVerdictFailIff(row);
    assert MeshResult(row, m) == Some(Fail);
  }

  /** The particle-size summary is FAIL iff some entry is rejected, and each
      mesh group's verdict is PASS iff its own entry is accepted. */
  lemma ParticleWriteVerdicts(progress: map<LotKey, ProgressRow>, results: map<LotKey, ResultRow>,
                              key: LotKey, payload: map<string, MeshEntry>, m: MeshId)
    requires WellFormedRows(results)
    requires ParticleWrite(progress, results, key, payload).Ok?
    ensures var w := ParticleWrite(progress, results, key, payload).value;
      && (w.0 == Fail <==> HasRejected(payload))
      && w.1.particleSizeResult == Some(w.0)
      && w.1.meshes[m].result == Some(if MeshKey(m) in payload && payload[MeshKey(m)].mark == Accepted then Pass else Fail)
      && w.1.analytes == BaseRow(progress, results, key).analytes
  {
    var base := BaseRow(progress, results, key);
    MeshWritesVerdicts(base.meshes, payload, |MeshIds|, m);
  }

  predicate DistinctKeys(s: seq<LotKey>)
  {
    forall i, j :: 0 <= i < j < |s| ==> s[i] != s[j]
  }

  /** The order list with `key` removed. */
  function Without(s: seq<LotKey>, key: LotKey): (r: seq<LotKey>)
    ensures forall k :: k in r <==> k in s && k != key
  {
    if s == [] then []
    else
      var init := Without(s[..|s| - 1], key);
      assert forall k :: k in s[..|s| - 1] ==> k in s;
      assert forall k :: k in s ==> k in s[..|s| - 1] || k == s[|s| - 1];
      if s[|s| - 1] == key then init else init + [s[|s| - 1]]
  }

  lemma {:induction false} WithoutDistinct(s: seq<LotKey>, key: LotKey)
    requires DistinctKeys(s)
    ensures DistinctKeys(Without(s, key))
  {
    if s != [] {
      var init := s[..|s| - 1];
      WithoutDistinct(init, key);
      var last := s[|s| - 1];
      if last != key {
        assert last !in init;
        var r := Without(s, key);
        var w := Without(init, key);
        assert r == w + [last];
        forall i, j | 0 <= i < j < |r| ensures r[i] != r[j] {
          if j == |r| - 1 {
            assert r[i] == w[i];
            assert w[i] in w;
          }
        }
      }
    }
  }

  /** The result table and its rowid order agree, and every row is whole. */
  ghost predicate TablesValid(results: map<LotKey, ResultRow>, order: seq<LotKey>)
  {
    DistinctKeys(order) && (forall k :: k in results <==> k in order) && WellFormedRows(results)
  }

  lemma PutRow(results: map<LotKey, ResultRow>, order: seq<LotKey>, key: LotKey, row: ResultRow)
    requires TablesValid(results, order) && WellFormed(row) && row.category == Incoming
    ensures TablesValid(results[key := row], if key in results then order else order + [key])
  {
    if key !in results {
      var o := order + [key];
      forall i, j | 0 <= i < j < |o| ensures o[i] != o[j] {
        if j == |o| - 1 {
          assert o[i] == order[i];
          assert order[i] in order;
        }
      }
    }
  }

  lemma ParticleRowWellFormed(base: ResultRow, meshes: map<MeshId, MeshCols>, overall: Verdict)
    requires WellFormed(base) && base.category == Incoming
    requires forall m: MeshId :: m in meshes
    ensures var row := base.(meshes := meshes, particleSizeResult := Some(overall));
      WellFormed(row) && row.category == Incoming
  {
  }

  lemma SetFinal(results: map<LotKey, ResultRow>, order: seq<LotKey>, key: LotKey, v: Option<Verdict>)
    requires TablesValid(results, order) && key in results
    ensures TablesValid(results[key := results[key].(finalResult := v)], order)
  {
    var r := results[key := results[key].(finalResult := v)];
    assert r.Keys == results.Keys;
    forall k | k in r ensures WellFormed(r[k]) && r[k].category == Incoming {
      if k == key {
        assert r[k].analytes == results[k].analytes && r[k].meshes == results[k].meshes;
      }
    }
  }

  lemma FinalizeValid(results: map<LotKey, ResultRow>, order: seq<LotKey>, key: LotKey)
    requires TablesValid(results, order)
    ensures TablesValid(Finalize(results, key), order)
  {
    if key in results {
      SetFinal(results, order, key, Some(FinalVerdict(results[key])));
    }
  }

  lemma DropRow(results: map<LotKey, ResultRow>, order: seq<LotKey>, key: LotKey)
    requires TablesValid(results, order)
    ensures TablesValid(results - {key}, Without(order, key))
  {
    WithoutDistinct(order, key);
  }

  /** The averaging step of `save_inspection_item`: the pair loop for the
      three weight-pair analytes, the replicate mean for any other name. */
  method ComputeAverage(name: string, values: seq<Raw>) returns (r: Result<real>)
    ensures r == Average(name, values)
  {
    var analyte := AnalyteNamed(name);
    if analyte.Some? && WeightBased(analyte.value) {
      var pairs := CollectPairs(analyte.value, values);
      if pairs.Err? {
        return Err(pairs.error);
      }
      if pairs.value == [] {
        return Err(NoValidMeasurements);
      }
      r := Ok(Round2(Mean(pairs.value)));
    } else {
      r := ScalarAverage(values);
    }
  }

  /** The column write of `save_to_result_table` for one analyte. */
  method WriteColumns(a: Analyte, cols: AnalyteCols, values: seq<Raw>, avg: real, verdict: Verdict)
    returns (r: Result<AnalyteCols>)
    requires |cols.cells| == CellCount(a)
    ensures r == AnalyteWrite(a, cols, values, avg, verdict)
  {
    if WeightBased(a) {
      r := WeightColumns(a, cols, values, avg, verdict);
    } else {
      r := ScalarColumns(cols, values, avg, verdict);
    }
  }

  // ---------------------------------------------------------------------
  // The store
  // ---------------------------------------------------------------------

  datatype StartOutcome =
    | MissingFields
    | Resumed(row: ProgressRow, items: seq<Item>)
    | AlreadyCompleted
    | NoItems
    | Started(items: seq<Item>)

  datatype SaveOutcome = Saved(average: real, verdict: Verdict) | Refused(error: EvalError)

  class InspectionStore {
    const catalog: SpecTables
    var progress: map<LotKey, ProgressRow>
    var results: map<LotKey, ResultRow>
    /** Result-row keys in insertion (rowid) order. */
    var resultOrder: seq<LotKey>

    ghost predicate Valid()
      reads this
    {
      TablesValid(results, resultOrder)
    }

    constructor (catalog: SpecTables)
      ensures Valid()
      ensures this.catalog == catalog && progress == map[] && results == map[] && resultOrder == []
    {
      this.catalog := catalog;
      progress := map[];
      results := map[];
      resultOrder := [];
    }

    /** `start_inspection`. */
    method StartInspection(powder: string, lot: string, itype: InspectionType, inspector: string, category: string)
      returns (out: StartOutcome)
      requires Valid()
      modifies this
      ensures Valid()
      ensures results == old(results) && resultOrder == old(resultOrder)
      ensures var key := LotKey(powder, lot);
        if powder == "" || lot == "" then out == MissingFields && progress == old(progress)
        else if key in old(progress) then
          out == Resumed(old(progress)[key], RequiredItems(catalog, powder, old(progress)[key].inspectionType))
          && progress == old(progress)
        else if key in old(results) then out == AlreadyCompleted && progress == old(progress)
        else if RequiredItems(catalog, powder, itype) == [] then out == NoItems && progress == old(progress)
        else
          var items := RequiredItems(catalog, powder, itype);
          out == Started(items)
          && progress == old(progress)[key := ProgressRow(itype, inspector, [], Names(items), ProgressText(0, |items|), category)]
    {
      if powder == "" || lot == "" {
        return MissingFields;
      }
      var key := LotKey(powder, lot);
      if key in progress {
        var row := progress[key];
        var items := ResolveItems(catalog, powder, row.inspectionType);
        return Resumed(row, items);
      }
      if key in results {
        return AlreadyCompleted;
      }
      var items := ResolveItems(catalog, powder, itype);
      if items == [] {
        return NoItems;
      }
      progress := progress[key := ProgressRow(itype, inspector, [], Names(items), ProgressText(0, |items|), category)];
      out := Started(items);
    }

    /** `check_spec`: a read of both tables and the catalogue. */
    method CheckSpec(key: LotKey, name: string, avg: real) returns (v: Verdict)
      ensures v == SpecVerdict(catalog, progress, results, key, name, avg)
    {
      var itype: InspectionType;
      if key in progress {
        itype := progress[key].inspectionType;
      } else if key in results {
        itype := results[key].inspectionType;
      } else {
        return Pass;
      }
      assert RecordedType(progress, results, key) == Some(itype);
      var items := ResolveItems(catalog, key.powder, itype);
      var i := 0;
      while i < |items|
        invariant 0 <= i <= |items|
        invariant ItemsVerdict(items[..i], name, avg) == Pass
      {
        var item := items[i];
        ItemsVerdictStep(items, i, name, avg);
        if ItemName(item) == name {
          var lo := ItemMin(item);
          var hi := ItemMax(item);
          if lo.Some? && avg < lo.value {
            VerdictFromPrefix(items, i + 1, name, avg);
            return Fail;
          }
          if hi.Some? && avg > hi.value {
            VerdictFromPrefix(items, i + 1, name, avg);
            return Fail;
          }
        }
        i := i + 1;
      }
      assert items[..i] == items;
      v := Pass;
    }

    /** `update_final_result`. */
    method UpdateFinalResult(key: LotKey)
      requires Valid()
      modifies this
      ensures Valid()
      ensures results == Finalize(old(results), key)
      ensures progress == old(progress) && resultOrder == old(resultOrder)
    {
      if key !in results {
        return;
      }
      var row := results[key];
      var v := ScanFinalVerdict(row);
      assert progress == old(progress) && resultOrder == old(resultOrder) && results == old(results);
      SetFinal(results, resultOrder, key, Some(v));
      results := results[key := row.(finalResult := Some(v))];
      assert results == old(results)[key := row.(finalResult := Some(FinalVerdict(row)))];
    }

    /** `update_progress`. */
    method UpdateProgress(key: LotKey, name: string)
      requires Valid()
      modifies this
      ensures Valid()
      ensures progress == ProgressAfter(old(progress), key, name)
      ensures results == ResultsAfterProgress(old(progress), old(results), key, name)
      ensures resultOrder == old(resultOrder)
    {
      if key !in progress {
        UpdateFinalResult(key);
        return;
      }
      var row := progress[key];
      var completed := row.completed;
      if name !in completed {
        completed := completed + [name];
      }
      var text := ProgressText(|completed|, |row.total|);
      progress := progress[key := row.(completed := completed, progress := text)];
      if |completed| == |row.total| {
        progress := progress - {key};
        UpdateFinalResult(key);
      }
    }

    /** `save_inspection_item` with `save_apparent_density`, `save_moisture`
        and `save_ash`: average, judge, write the item's columns, then
        update the progress. A refused request changes nothing. */
    method SaveItem(key: LotKey, name: string, values: seq<Raw>) returns (out: SaveOutcome)
      requires Valid()
      modifies this
      ensures Valid()
      ensures var w := ItemWrite(catalog, old(progress), old(results), key, name, values);
        if w.Err? then
          out == Refused(w.error)
          && progress == old(progress) && results == old(results) && resultOrder == old(resultOrder)
        else
          out == Saved(w.value.average, w.value.verdict)
          && progress == ProgressAfter(old(progress), key, name)
          && results == ResultsAfterProgress(old(progress), old(results)[key := w.value.row], key, name)
          && resultOrder == (if key in old(results) then old(resultOrder) else old(resultOrder) + [key])
    {
      var average := ComputeAverage(name, values);
      if average.Err? {
        return Refused(average.error);
      }
      var avg := average.value;
      var verdict := CheckSpec(key, name, avg);
      assert progress == old(progress) && results == old(results) && resultOrder == old(resultOrder);
      var analyte := AnalyteNamed(name);
      if analyte.None? {
        return Refused(UnknownItem);
      }
      var a := analyte.value;
      var base := BaseRow(progress, results, key);
      var cols := WriteColumns(a, base.analytes[a], values, avg, verdict);
      assert progress == old(progress) && results == old(results) && resultOrder == old(resultOrder);
      if cols.Err? {
        return Refused(cols.error);
      }
      var row := base.(analytes := base.analytes[a := cols.value]);
      AnalyteWriteShape(a, base.analytes[a], values, avg, verdict);
      assert ItemWrite(catalog, progress, results, key, name, values) == Ok(Written(avg, verdict, row));
      PutRow(results, resultOrder, key, row);
      resultOrder := if key in results then resultOrder else resultOrder + [key];
      results := results[key := row];
      assert progress == old(progress);
      UpdateProgress(key, name);
      out := Saved(avg, verdict);
    }

    /** `save_particle_size` with `save_particle_to_result_table`. */
    method SaveParticleSize(key: LotKey, payload: map<string, MeshEntry>) returns (out: SaveOutcome)
      requires Valid()
      modifies this
      ensures Valid()
      ensures var w := ParticleWrite(old(progress), old(results), key, payload);
        if w.Err? then
          out == Refused(w.error)
          && progress == old(progress) && results == old(results) && resultOrder == old(resultOrder)
        else
          out == Saved(0.0, w.value.0)
          && progress == ProgressAfter(old(progress), key, ParticleSizeName)
          && results == ResultsAfterProgress(old(progress), old(results)[key := w.value.1], key, ParticleSizeName)
          && resultOrder == (if key in old(results) then old(resultOrder) else old(resultOrder) + [key])
    {
      ghost var w := ParticleWrite(progress, results, key, payload);
      var overall := OverallParticleResult(payload);
      var base := BaseRow(progress, results, key);
      var meshes := MeshWrites(base.meshes, payload);
      if meshes.Err? {
        assert w == Err(meshes.error);
        return Refused(meshes.error);
      }
      var row := base.(meshes := meshes.value, particleSizeResult := Some(overall));
      assert w == Ok((overall, row));
      ParticleRowWellFormed(base, meshes.value, overall);
      PutRow(results, resultOrder, key, row);
      resultOrder := if key in results then resultOrder else resultOrder + [key];
      results := results[key := row];
      assert progress == old(progress);
      UpdateProgress(key, ParticleSizeName);
      out := Saved(0.0, overall);
    }

    /** `delete_incomplete_inspection`: only an existing progress row is
        removed; result rows are never touched. */
    method DeleteIncompleteInspection(key: LotKey) returns (found: bool)
      requires Valid()
      modifies this
      ensures Valid()
      ensures found <==> key in old(progress)
      ensures progress == old(progress) - {key}
      ensures results == old(results) && resultOrder == old(resultOrder)
    {
      if key !in progress {
        return false;
      }
      progress := progress - {key};
      found := true;
    }

    /** `delete_inspection`: both rows of the lot go, whether present or not. */
    method DeleteInspection(key: LotKey)
      requires Valid()
      modifies this
      ensures Valid()
      ensures progress == old(progress) - {key} && results == old(results) - {key}
      ensures resultOrder == Without(old(resultOrder), key)
    {
      DropRow(results, resultOrder, key);
      results := results - {key};
      progress := progress - {key};
      resultOrder := Without(resultOrder, key);
    }
  }

  /** One more item scanned: the verdict so far turns FAIL exactly when that
      item is the submitted one and the average is out of its bounds. */
  lemma ItemsVerdictStep(items: seq<Item>, i: nat, name: string, avg: real)
    requires i < |items|
    requires ItemsVerdict(items[..i], name, avg) == Pass
    ensures ItemsVerdict(items[..i + 1], name, avg) == (if FailsOn(items[i], name, avg) then Fail else Pass)
  {
    assert items[..i + 1][..i] == items[..i];
  }

  lemma VerdictFromPrefix(items: seq<Item>, n: nat, name: string, avg: real)
    requires 0 < n <= |items|
    requires ItemName(items[n - 1]) == name && Judge(ItemMin(items[n - 1]), ItemMax(items[n - 1]), avg) == Fail
    ensures ItemsVerdict(items, name, avg) == Fail
  {
    ItemsVerdictFailIff(items, name, avg);
  }
}
