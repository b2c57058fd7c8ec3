/** The wide `inspection_result` row and the column writes of one
    submission: `save_to_result_table`, `update_special_item`,
    `save_particle_to_result_table` and the scan of `update_final_result`
    (app.py:697-965, app.py:1008-1038). */
module Results {
  import opened Common
  import opened Catalog
  import opened Evaluator

  // ---------------------------------------------------------------------
  // The row
  // ---------------------------------------------------------------------

  /** The columns of one analyte. `cells` are the replicate columns in
      schema order: three readings for a scalar analyte; for a weight-pair
      analyte, `first_i, second_i, derived_i` for i = 1, 2, 3. */
  datatype AnalyteCols = AnalyteCols(cells: seq<Option<real>>, avg: Option<real>, result: Option<Verdict>)

  function CellCount(a: Analyte): nat
  {
    if WeightBased(a) then 9 else 3
  }

  function EmptyCols(a: Analyte): (cols: AnalyteCols)
    ensures |cols.cells| == CellCount(a)
    ensures forall j :: 0 <= j < |cols.cells| ==> cols.cells[j].None?
  {
    AnalyteCols(seq(CellCount(a), _ => None), None, None)
  }

  /** The six fixed mesh column groups. */
  datatype MeshId = Mesh180 | Mesh150 | Mesh106 | Mesh75 | Mesh45 | Mesh45M

  const MeshIds: seq<MeshId> := [Mesh180, Mesh150, Mesh106, Mesh75, Mesh45, Mesh45M]

  function MeshRank(m: MeshId): (k: nat)
    ensures k < |MeshIds| && MeshIds[k] == m
  {
    match m
    case Mesh180 => 0
    case Mesh150 => 1
    case Mesh106 => 2
    case Mesh75 => 3
    case Mesh45 => 4
    case Mesh45M => 5
  }

  /** The payload key under which a mesh group's entry is looked up. */
  function MeshKey(m: MeshId): string
  {
    match m
    case Mesh180 => "180"
    case Mesh150 => "150"
    case Mesh106 => "106"
    case Mesh75 => "75"
    case Mesh45 => "45"
    case Mesh45M => "45M"
  }

  /** `particle_size_<mesh>_1`, `_2`, `_avg`, `_result`. */
  datatype MeshCols = MeshCols(v1: Option<real>, v2: Option<real>, avg: Option<real>, result: Option<Verdict>)

  const EmptyMesh := MeshCols(None, None, None, None)

  /** The inspector recorded when a row is created without a progress row. */
  const Unassigned: string := "미지정"

  /** The `category` column default; the core never writes the column. */
  const Incoming: string := "incoming"

  datatype ResultRow = ResultRow(
    inspectionType: InspectionType, inspector: string, category: string,
    analytes: map<Analyte, AnalyteCols>, meshes: map<MeshId, MeshCols>,
    particleSizeResult: Option<Verdict>, finalResult: Option<Verdict>)

  /** Every column group is present with the right number of cells. */
  predicate WellFormed(row: ResultRow)
  {
    (forall a: Analyte :: a in row.analytes && |row.analytes[a].cells| == CellCount(a))
    && (forall m: MeshId :: m in row.meshes)
  }

  /** The row `INSERT`ed before the first write: everything null. */
  function NewRow(itype: InspectionType, inspector: string): (row: ResultRow)
    ensures WellFormed(row)
    ensures row.category == Incoming && row.finalResult.None?
  {
    var row := ResultRow(itype, inspector, Incoming,
      map a | a in Analytes :: EmptyCols(a),
      map m | m in MeshIds :: EmptyMesh,
      None, None);
    assert forall a: Analyte :: a in row.analytes by {
      forall a: Analyte ensures a in row.analytes { assert Analytes[Rank(a)] == a; }
    }
    assert forall m: MeshId :: m in row.meshes by {
      forall m: MeshId ensures m in row.meshes { assert MeshIds[MeshRank(m)] == m; }
    }
    row
  }

  // ---------------------------------------------------------------------
  // Writing one submitted entry
  // ---------------------------------------------------------------------

  /** `values[j]`, or nothing when the list is shorter. */
  function Entry(values: seq<Raw>, j: nat): Raw
  {
    if j < |values| then values[j] else Blank
  }

  /** A column is written only for a non-empty entry; `float()` of a
      malformed entry raises. */
  function Cell(prior: Option<real>, r: Raw): Result<Option<real>>
  {
    match r
    case Blank => Ok(prior)
    case Number(v) => Ok(Some(v))
    case Malformed => Err(MalformedValue)
  }

  /** The write of a scalar analyte: its first three entries, the average
      and the verdict (app.py:755-775). Entries past the third are averaged
      but have no column. */
  function ScalarColumns(cols: AnalyteCols, values: seq<Raw>, avg: real, verdict: Verdict): Result<AnalyteCols>
    requires |cols.cells| == 3
  {
    var c0 := Cell(cols.cells[0], Entry(values, 0));
    var c1 := Cell(cols.cells[1], Entry(values, 1));
    var c2 := Cell(cols.cells[2], Entry(values, 2));
    if c0.Err? || c1.Err? || c2.Err? then Err(MalformedValue)
    else Ok(AnalyteCols([c0.value, c1.value, c2.value], Some(avg), Some(verdict)))
  }

  /** Pair `i` of a weight-pair write (one iteration of the loop in
      `update_special_item`): each non-empty weight is stored, and when both
      are, the derived value rounded to two places. */
  function PairCells(a: Analyte, cells: seq<Option<real>>, values: seq<Raw>, i: nat): Result<seq<Option<real>>>
    requires WeightBased(a) && i < 3 && |cells| == 9
  {
    var first := Entry(values, 2 * i);
    var second := Entry(values, 2 * i + 1);
    var c1 := Cell(cells[3 * i], first);
    var c2 := Cell(cells[3 * i + 1], second);
    if c1.Err? || c2.Err? then Err(MalformedValue)
    else if !(Filled(first) && Filled(second)) then
      Ok(cells[3 * i := c1.value][3 * i + 1 := c2.value])
    else
      match PairValue(a, first.v, second.v)
      case None => Err(DivisionByZero)
      case Some(x) => Ok(cells[3 * i := c1.value][3 * i + 1 := c2.value][3 * i + 2 := Some(Round2(x))])
  }

  /** The cells after the first `n` iterations of the pair loop. */
  function PairCellsUpTo(a: Analyte, cells: seq<Option<real>>, values: seq<Raw>, n: nat): (r: Result<seq<Option<real>>>)
    requires WeightBased(a) && n <= 3 && |cells| == 9
    ensures r.Ok? ==> |r.value| == 9
  {
    if n == 0 then Ok(cells)
    else
      match PairCellsUpTo(a, cells, values, n - 1)
      case Err(e) => Err(e)
      case Ok(prev) => PairCells(a, prev, values, n - 1)
  }

  /** `update_special_item`: the three pairs, then the average and verdict. */
  method WeightColumns(a: Analyte, cols: AnalyteCols, values: seq<Raw>, avg: real, verdict: Verdict)
    returns (r: Result<AnalyteCols>)
    requires WeightBased(a) && |cols.cells| == 9
    ensures r == match PairCellsUpTo(a, cols.cells, values, 3)
                 case Err(e) => Err(e)
                 case Ok(cells) => Ok(AnalyteCols(cells, Some(avg), Some(verdict)))
  {
    var cells := cols.cells;
    for i := 0 to 3
      invariant PairCellsUpTo(a, cols.cells, values, i) == Ok(cells)
      invariant |cells| == 9
    {
      var step := PairCells(a, cells, values, i);
      if step.Err? {
        PairCellsErrorPersists(a, cols.cells, values, i, 3);
        return Err(step.error);
      }
      cells := step.value;
    }
    r := Ok(AnalyteCols(cells, Some(avg), Some(verdict)));
  }

  lemma {:induction false} PairCellsErrorPersists(a: Analyte, cells: seq<Option<real>>, values: seq<Raw>, i: nat, n: nat)
    requires WeightBased(a) && |cells| == 9 && i < n <= 3
    requires PairCellsUpTo(a, cells, values, i).Ok?
    requires PairCells(a, PairCellsUpTo(a, cells, values, i).value, values, i).Err?
    ensures PairCellsUpTo(a, cells, values, n) == PairCells(a, PairCellsUpTo(a, cells, values, i).value, values, i)
    decreases n
  {
    if n - 1 > i {
      PairCellsErrorPersists(a, cells, values, i, n - 1);
    }
  }

  /** The write of one analyte's columns, chosen by its kind. */
  function AnalyteWrite(a: Analyte, cols: AnalyteCols, values: seq<Raw>, avg: real, verdict: Verdict): Result<AnalyteCols>
    requires |cols.cells| == CellCount(a)
  {
    if WeightBased(a) then
      match PairCellsUpTo(a, cols.cells, values, 3)
      case Err(e) => Err(e)
      case Ok(cells) => Ok(AnalyteCols(cells, Some(avg), Some(verdict)))
    else ScalarColumns(cols, values, avg, verdict)
  }

  /** A write keeps the shape of the column group. */
  lemma AnalyteWriteShape(a: Analyte, cols: AnalyteCols, values: seq<Raw>, avg: real, verdict: Verdict)
    requires |cols.cells| == CellCount(a)
    requires AnalyteWrite(a, cols, values, avg, verdict).Ok?
    ensures var w := AnalyteWrite(a, cols, values, avg, verdict).value;
      |w.cells| == CellCount(a) && w.avg == Some(avg) && w.result == Some(verdict)
  {
  }

  /** Whether the scalar write succeeds: it does whenever the averaging of
      the same entries did, since both parse every non-blank entry among the
      first three. Each stored cell is the reading given, or the old value
      when the entry is blank or absent. */
  lemma ScalarWriteAfterAverage(cols: AnalyteCols, values: seq<Raw>, avg: real, verdict: Verdict)
    requires |cols.cells| == 3 && ScalarAverage(values).Ok?
    ensures ScalarColumns(cols, values, avg, verdict).Ok?
    ensures forall j :: 0 <= j < 3 ==>
      ScalarColumns(cols, values, avg, verdict).value.cells[j] ==
        (if j < |values| && values[j].Number? then Some(values[j].v) else cols.cells[j])
  {
    ReadingsCount(values, 0.0);
    assert forall j :: 0 <= j < |values| ==> values[j] != Malformed;
  }

  /** A fourth replicate counts in the average but is stored nowhere. */
  lemma FourthReplicateNotStored(cols: AnalyteCols, x0: real, x1: real, x2: real, x3: real, verdict: Verdict)
    requires |cols.cells| == 3
    ensures var values := [Number(x0), Number(x1), Number(x2), Number(x3)];
      ScalarColumns(cols, values, 0.0, verdict).Ok?
      && ScalarColumns(cols, values, 0.0, verdict).value.cells == [Some(x0), Some(x1), Some(x2)]
  {
  }

  /** Pair `i` as stored in `c`, starting from `base`: each non-empty
      weight, and for a complete pair the derived value rounded to two
      places; a cell whose entry is blank keeps its earlier value. */
  predicate PairStored(a: Analyte, values: seq<Raw>, base: seq<Option<real>>, c: seq<Option<real>>, i: nat)
    requires WeightBased(a) && i < 3 && |values| >= 6 && |base| == 9 && |c| == 9
  {
    var first := values[2 * i];
    var second := values[2 * i + 1];
    && c[3 * i] == (if first.Number? then Some(first.v) else base[3 * i])
    && c[3 * i + 1] == (if second.Number? then Some(second.v) else base[3 * i + 1])
    && c[3 * i + 2] ==
         (if first.Number? && second.Number? && PairValue(a, first.v, second.v).Some?
          then Some(Round2(PairValue(a, first.v, second.v).value)) else base[3 * i + 2])
  }

  predicate PairUntouched(base: seq<Option<real>>, c: seq<Option<real>>, i: nat)
    requires i < 3 && |base| == 9 && |c| == 9
  {
    c[3 * i] == base[3 * i] && c[3 * i + 1] == base[3 * i + 1] && c[3 * i + 2] == base[3 * i + 2]
  }

  /** With no malformed entry among the first six, the weight-pair write
      succeeds once the averaging did; every non-empty weight is stored and
      each complete pair stores its derived value rounded to two places. */
  lemma WeightWriteAfterAverage(a: Analyte, cols: AnalyteCols, values: seq<Raw>, i: nat)
    requires WeightBased(a) && |cols.cells| == 9 && i < 3
    requires WeightAverage(a, values).Ok?
    requires forall j :: 0 <= j < |values| && j < 6 ==> values[j] != Malformed
    ensures |values| >= 6 && PairCellsUpTo(a, cols.cells, values, 3).Ok?
    ensures PairStored(a, values, cols.cells, PairCellsUpTo(a, cols.cells, values, 3).value, i)
  {
    if |values| < 6 {
      ShortWeightInputRejected(a, values);
    }
    PairWritesTrack(a, cols.cells, values, 3, i);
  }

  /** One iteration of the write after the averaging accepted that pair:
      it succeeds, stores its own pair and leaves the other pairs alone. */
  lemma PairCellsStep(a: Analyte, prev: seq<Option<real>>, values: seq<Raw>, j: nat, i: nat)
    requires WeightBased(a) && |prev| == 9 && j < 3 && i < 3 && |values| >= 6
    requires PairStep(a, values, j).Ok?
    requires values[2 * j] != Malformed && values[2 * j + 1] != Malformed
    ensures PairCells(a, prev, values, j).Ok? && |PairCells(a, prev, values, j).value| == 9
    ensures i == j ==> PairStored(a, values, prev, PairCells(a, prev, values, j).value, j)
    ensures i != j ==> PairUntouched(prev, PairCells(a, prev, values, j).value, i)
  {
  }

  /** Iteration by iteration, the pair write succeeds where the averaging
      loop did, and iteration `i` owns cells `3i .. 3i+2`. */
  lemma {:induction false} PairWritesTrack(a: Analyte, cells: seq<Option<real>>, values: seq<Raw>, n: nat, i: nat)
    requires WeightBased(a) && |cells| == 9 && n <= 3 && i < 3 && |values| >= 6
    requires PairValues(a, values, n).Ok?
    requires forall j :: 0 <= j < 6 ==> values[j] != Malformed
    ensures PairCellsUpTo(a, cells, values, n).Ok?
    ensures i < n ==> PairStored(a, values, cells, PairCellsUpTo(a, cells, values, n).value, i)
    ensures i >= n ==> PairUntouched(cells, PairCellsUpTo(a, cells, values, n).value, i)
    decreases n
  {
    if n > 0 {
      PairWritesTrack(a, cells, values, n - 1, i);
      var prev := PairCellsUpTo(a, cells, values, n - 1).value;
      PairCellsStep(a, prev, values, n - 1, i);
    }
  }

  /** The weights are checked for format only pair by pair in the
      averaging, but one by one in the write: a malformed weight whose
      partner is blank passes the averaging and then fails the write, so
      the whole submission is refused. */
  lemma UnpairedMalformedWeightRejected(a: Analyte, cols: AnalyteCols, w1: real, w2: real)
    requires WeightBased(a) && |cols.cells| == 9 && w1 != 0.0
    ensures var values := [Malformed, Blank, Number(w1), Number(w2), Blank, Blank];
      WeightAverage(a, values).Ok? && AnalyteWrite(a, cols, values, 0.0, Pass).Err?
  {
    var values := [Malformed, Blank, Number(w1), Number(w2), Blank, Blank];
    assert PairValues(a, values, 1) == Ok([]);
    assert PairValues(a, values, 2).Ok? && |PairValues(a, values, 2).value| == 1;
    assert PairValues(a, values, 3).Ok? && |PairValues(a, values, 3).value| == 1;
    assert PairCellsUpTo(a, cols.cells, values, 1).Err?;
    assert PairCellsUpTo(a, cols.cells, values, 2).Err?;
  }

  // ---------------------------------------------------------------------
  // Particle size (app.py:423-445, app.py:894-965)
  // ---------------------------------------------------------------------

  /** The `result` field of a mesh entry: '합격', '불합격', or anything else
      (including a missing field). */
  datatype Mark = Accepted | Rejected | Unmarked

  datatype MeshEntry = MeshEntry(val1: Raw, val2: Raw, avg: Raw, mark: Mark)

  /** `particle_data.get(mesh_id, {})` for a missing key. */
  const AbsentEntry := MeshEntry(Blank, Blank, Blank, Unmarked)

  function EntryOf(payload: map<string, MeshEntry>, m: MeshId): MeshEntry
  {
    if MeshKey(m) in payload then payload[MeshKey(m)] else AbsentEntry
  }

  /** A payload entry marked rejected. */
  predicate HasRejected(payload: map<string, MeshEntry>)
  {
    exists k :: k in payload && payload[k].mark == Rejected
  }

  /** The loop of `save_particle_size` over every payload entry: the overall
      result is FAIL iff some entry, under any key, is marked rejected. */
  method OverallParticleResult(payload: map<string, MeshEntry>) returns (v: Verdict)
    ensures v == Fail <==> HasRejected(payload)
  {
    v := Pass;
    var remaining := payload.Keys;
    while remaining != {}
      invariant remaining <= payload.Keys
      invariant v == Fail <==> exists k :: k in payload.Keys - remaining && payload[k].mark == Rejected
      decreases |remaining|
    {
      var k :| k in remaining;
      if payload[k].mark == Rejected {
        v := Fail;
      }
      remaining := remaining - {k};
    }
  }

  /** One mesh group's write: each non-empty field is stored; the verdict
      is PASS only for an entry marked accepted. */
  function MeshWrite(cols: MeshCols, e: MeshEntry): Result<MeshCols>
  {
    var c1 := Cell(cols.v1, e.val1);
    var c2 := Cell(cols.v2, e.val2);
    var ca := Cell(cols.avg, e.avg);
    if c1.Err? || c2.Err? || ca.Err? then Err(MalformedValue)
    else Ok(MeshCols(c1.value, c2.value, ca.value, Some(if e.mark == Accepted then Pass else Fail)))
  }

  /** The mesh groups after the first `n` of the six have been written. */
  function MeshWritesUpTo(meshes: map<MeshId, MeshCols>, payload: map<string, MeshEntry>, n: nat): (r: Result<map<MeshId, MeshCols>>)
    requires n <= |MeshIds| && forall m: MeshId :: m in meshes
    ensures r.Ok? ==> forall m: MeshId :: m in r.value
  {
    if n == 0 then Ok(meshes)
    else
      match MeshWritesUpTo(meshes, payload, n - 1)
      case Err(e) => Err(e)
      case Ok(prev) =>
        var m := MeshIds[n - 1];
        match MeshWrite(prev[m], EntryOf(payload, m))
        case Err(e) => Err(e)
        case Ok(c) => Ok(prev[m := c])
  }

  /** The loop of `save_particle_to_result_table` over the six mesh groups. */
  method MeshWrites(meshes: map<MeshId, MeshCols>, payload: map<string, MeshEntry>)
    returns (r: Result<map<MeshId, MeshCols>>)
    requires forall m: MeshId :: m in meshes
    ensures r == MeshWritesUpTo(meshes, payload, |MeshIds|)
  {
    var cur := meshes;
    for i := 0 to |MeshIds|
      invariant MeshWritesUpTo(meshes, payload, i) == Ok(cur)
    {
      var m := MeshIds[i];
      var e := if MeshKey(m) in payload then payload[MeshKey(m)] else AbsentEntry;
      var c := MeshWrite(cur[m], e);
      if c.Err? {
        MeshErrorPersists(meshes, payload, i, |MeshIds|);
        return Err(c.error);
      }
      cur := cur[m := c.value];
    }
    r := Ok(cur);
  }

  lemma {:induction false} MeshErrorPersists(meshes: map<MeshId, MeshCols>, payload: map<string, MeshEntry>, i: nat, n: nat)
    requires forall m: MeshId :: m in meshes
    requires i < n <= |MeshIds| && MeshWritesUpTo(meshes, payload, i).Ok?
    requires MeshWrite(MeshWritesUpTo(meshes, payload, i).value[MeshIds[i]], EntryOf(payload, MeshIds[i])).Err?
    ensures MeshWritesUpTo(meshes, payload, n) == Err(MalformedValue)
    decreases n
  {
    if n - 1 > i {
      MeshErrorPersists(meshes, payload, i, n - 1);
    }
  }

  /** After a successful particle write, each mesh group's verdict is PASS
      exactly when the payload entry under its key is marked accepted; a
      group whose key is missing is written as FAIL. */
  lemma {:induction false} MeshWritesVerdicts(meshes: map<MeshId, MeshCols>, payload: map<string, MeshEntry>, n: nat, m: MeshId)
    requires n <= |MeshIds| && forall m: MeshId :: m in meshes
    requires MeshWritesUpTo(meshes, payload, n).Ok?
    ensures MeshRank(m) < n ==>
      MeshWritesUpTo(meshes, payload, n).value[m].result ==
        Some(if MeshKey(m) in payload && payload[MeshKey(m)].mark == Accepted then Pass else Fail)
    ensures MeshRank(m) >= n ==> MeshWritesUpTo(meshes, payload, n).value[m] == meshes[m]
  {
    if n > 0 {
      MeshWritesVerdicts(meshes, payload, n - 1, m);
    }
  }

  /** A payload whose fields are all blank or numbers is always written. */
  lemma {:induction false} MeshWritesSucceed(meshes: map<MeshId, MeshCols>, payload: map<string, MeshEntry>, n: nat)
    requires n <= |MeshIds| && forall m: MeshId :: m in meshes
    requires forall k :: k in payload ==>
      payload[k].val1 != Malformed && payload[k].val2 != Malformed && payload[k].avg != Malformed
    ensures MeshWritesUpTo(meshes, payload, n).Ok?
  {
    if n > 0 {
      MeshWritesSucceed(meshes, payload, n - 1);
    }
  }

  // ---------------------------------------------------------------------
  // Final verdict (app.py:1019-1036)
  // ---------------------------------------------------------------------

  function AnalyteResult(row: ResultRow, a: Analyte): Option<Verdict>
  {
    if a in row.analytes then row.analytes[a].result else None
  }

  function MeshResult(row: ResultRow, m: MeshId): Option<Verdict>
  {
    if m in row.meshes then row.meshes[m].result else None
  }

  /** The seventeen `*_result` columns other than `final_result`. */
  function ResultColumns(row: ResultRow): seq<Option<Verdict>>
  {
    [AnalyteResult(row, FlowRate), AnalyteResult(row, ApparentDensity),
     AnalyteResult(row, CContent), AnalyteResult(row, CuContent),
     AnalyteResult(row, Moisture), AnalyteResult(row, Ash),
     AnalyteResult(row, SinterChangeRate), AnalyteResult(row, SinterStrength),
     AnalyteResult(row, FormingStrength), AnalyteResult(row, FormingLoad),
     MeshResult(row, Mesh180), MeshResult(row, Mesh150), MeshResult(row, Mesh106),
     MeshResult(row, Mesh75), MeshResult(row, Mesh45), MeshResult(row, Mesh45M),
     row.particleSizeResult]
  }

  /** The scan of `update_final_result`: FAIL at the first column holding
      FAIL, PASS if none does (null columns count as PASS). */
  method ScanFinalVerdict(row: ResultRow) returns (v: Verdict)
    ensures v == FinalVerdict(row)
  {
    var cols := ResultColumns(row);
    v := Pass;
    var i := 0;
    while i < |cols|
      invariant 0 <= i <= |cols|
      invariant v == Pass && Some(Fail) !in cols[..i]
    {
      if cols[i] == Some(Fail) {
        v := Fail;
        break;
      }
      assert cols[..i + 1] == cols[..i] + [cols[i]];
      i := i + 1;
    }
    assert i == |cols| ==> cols[..i] == cols;
    assert v == Fail ==> cols[i] == Some(Fail);
  }

  function FinalVerdict(row: ResultRow): Verdict
  {
    if Some(Fail) in ResultColumns(row) then Fail else Pass
  }

  /** Where each scanned column comes from. */
  lemma ColumnOfAnalyte(row: ResultRow, a: Analyte)
    ensures ResultColumns(row)[Rank(a)] == AnalyteResult(row, a)
  {
  }

  lemma ColumnOfMesh(row: ResultRow, m: MeshId)
    ensures ResultColumns(row)[10 + MeshRank(m)] == MeshResult(row, m)
  {
  }

  lemma ColumnSource(row: ResultRow, k: nat)
    requires k < |ResultColumns(row)|
    ensures k < 10 ==> ResultColumns(row)[k] == AnalyteResult(row, Analytes[k])
    ensures 10 <= k < 16 ==> ResultColumns(row)[k] == MeshResult(row, MeshIds[k - 10])
    ensures k == 16 ==> ResultColumns(row)[k] == row.particleSizeResult
  {
    if k < 10 {
      RankOfPosition(k);
      ColumnOfAnalyte(row, Analytes[k]);
    } else if k < 16 {
      MeshRankOfPosition(k - 10);
      ColumnOfMesh(row, MeshIds[k - 10]);
    }
  }

  lemma MeshRankOfPosition(k: nat)
    requires k < |MeshIds|
    ensures MeshRank(MeshIds[k]) == k
  {
  }

  /** FAIL dominates: the final verdict is FAIL iff some analyte, some mesh
      group or the particle-size summary holds FAIL. Nothing else (and in
      particular not an earlier final verdict) matters. */
  lemma FinalVerdictFailIff(row: ResultRow)
    ensures FinalVerdict(row) == Fail <==>
      (exists a: Analyte :: AnalyteResult(row, a) == Some(Fail))
      || (exists m: MeshId :: MeshResult(row, m) == Some(Fail))
      || row.particleSizeResult == Some(Fail)
  {
    var cols := ResultColumns(row);
    assert |cols| == 17;
    if Some(Fail) in cols {
      var k :| 0 <= k < |cols| && cols[k] == Some(Fail);
      ColumnSource(row, k);
    }
    if exists a: Analyte :: AnalyteResult(row, a) == Some(Fail) {
      var a: Analyte :| AnalyteResult(row, a) == Some(Fail);
      ColumnOfAnalyte(row, a);
    }
    if exists m: MeshId :: MeshResult(row, m) == Some(Fail) {
      var m: MeshId :| MeshResult(row, m) == Some(Fail);
      ColumnOfMesh(row, m);
    }
    ColumnSource(row, 16);
  }
}
