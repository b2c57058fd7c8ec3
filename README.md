# Powder inspection and blending: a verified model

This project models the inspection and blending engine of a powder-metallurgy
quality system: the Flask server `app.py` and the decision logic of its
browser client `static/js/app.js`.

An inspection is keyed by (powder, lot). Starting one resolves, from the
powder's specification row, the items the requested inspection type requires:

- the ten scalar analytes, filtered by their daily/periodic tag and by having a bound;
- a particle-size composite built from the powder's mesh rows.

Each item submission proceeds in four steps:

1. It averages the replicates. Blank entries are dropped. The three weight-pair analytes (apparent density, moisture, ash) are derived from pairs of weights first.
2. It judges the average against the bounds resolved for the recorded inspection type.
3. It writes only that item's columns into the wide result row, creating the row if needed.
4. It advances the progress row. When the completed and total counts meet, the progress row is retired and the final verdict is set by scanning every `*_result` column. FAIL dominates.

Blending has these parts:

- Work orders are started with unique work-order and batch-lot numbers.
- Material inputs are accepted when the lot has an incoming inspection record for the same powder. The deviation from the target weight is then recorded, and the work's total is re-summed.
- Completion compares the number of inputs with the number of active recipe lines.
- Batch lots are numbered `BATCH-<date>-NNN`.
- Traceability joins batches, inputs and incoming inspections in both directions.

The client builds the particle-size payload, checks recipe ratio sums, and
gates the material save button on lot validation.

Modules, one file each:

- `Common` (common.dfy): optional values, parsed measurement strings (`Raw`), verdicts, two-place rounding, decimal digit strings and zero padding.
- `Catalog` (catalog.dfy): the specification tables and item resolution.
- `Evaluator` (evaluator.dfy): averaging, the weight-pair derivations and the bound check.
- `Results` (results.dfy): the wide result row, the column writes of one submission and the final-verdict scan.
- `Inspection` (inspection_store.dfy): the `InspectionStore` class, which holds the progress and result tables and has one method per endpoint.
- `Blending` (blending.dfy): the `BlendingStore` class over the work and input tables, plus lot validation, deviation, completion, batch-lot numbering and traceability.
- `Client` (client.dfy): the client-side decisions.

Endpoints that change tables are methods of the two store classes. Each method's
`ensures` gives the whole new state in terms of specification functions, and
the lemmas beside those functions state what the source promises. Loops of the
source are `while`/`for` loops with invariants, proved equal to the same
specification functions.

The model follows the code where it differs from what one might assume:

- Ash is `ash / initial x 100`.
- A zero initial weight refuses the whole submission instead of skipping the pair.
- Inputs outside tolerance are still recorded.
- The material-input endpoint does not check the lot's verdict.
- The progress list accepts names outside the required list.
- Every result row has category `incoming`, because no write sets that column.
- `material_input.blending_work_id` is not checked against the work table. An input for an unknown work is recorded, and completing an unknown work succeeds, since it expects zero inputs.

## Model

| member | source | states |
|---|---|---|
| Common.RoundAtClose | app.py:403-404 | rounding to two places moves a value by at most half a hundredth |
| Common.RoundAtIdempotent | app.py:404 | rounding an already rounded value changes nothing |
| Common.RoundAtMonotone | app.py:404 | rounding never reverses the order of two values |
| Common.ParseNat | app.py:1709 | the suffix parses exactly when it is non-empty and all digits |
| Common.NatToStringRoundTrip | app.py:1709-1715 | parsing the decimal text of n gives back n |
| Common.Pad3RoundTrip | app.py:1715 | the zero-padded `{n:03d}` text has at least three characters and parses back to n |
| Catalog.Rank | app.py:134-167 | each analyte's position in the fixed item order |
| Catalog.RankOfPosition | app.py:134-167 | the analyte at position k has rank k |
| Catalog.NameRoundTrip | app.py:134-166 | looking up an analyte's item name finds that analyte |
| Catalog.AnalyteNamesDistinct | app.py:134-166 | two analytes share an item name iff they are equal, and no analyte is named `ParticleSize` |
| Catalog.AnalyteNamed | app.py:740 | a found analyte carries the looked-up name; not found means no analyte has that name |
| Catalog.Names | app.py:290 | the item-name list has one name per item, in item order |
| Catalog.ResolveItems | app.py:121-211 | the filtering loop returns exactly the required-item list |
| Catalog.ScalarItemsMembers | app.py:170-180 | an item is kept iff it is the scalar item of a walked analyte whose tag passes the type rule and which has a bound |
| Catalog.ScalarRequiredIff | app.py:125-180 | a scalar analyte is required iff the powder is known, its tag passes the type rule (daily: daily; periodic: daily or periodic) and min or max is set |
| Catalog.ParticleRequiredIff | app.py:182-209 | `ParticleSize` is required iff the powder is known, its particle tag passes the type rule and a mesh row exists; it is then the last item and carries every mesh row |
| Catalog.NoItemsWhenUnknown | app.py:125-211 | an unknown powder, or an inspection type other than daily or periodic, requires nothing |
| Catalog.NoScalarsForOther | app.py:170-180 | another inspection type keeps no scalar item |
| Catalog.DailyWithinPeriodic | app.py:170-209 | every item a daily inspection requires is required by a periodic one |
| Catalog.ScalarItemsOrdered | app.py:170-180 | the kept scalar items follow the fixed analyte order strictly |
| Catalog.ScalarItemsBelow | app.py:170-180 | items kept from the first n analytes are scalar items of rank below n |
| Catalog.RequiredItemsOrdered | app.py:170-211 | the required items are in analyte order, all but the last are scalar, and their names are distinct |
| Evaluator.SumAppend | app.py:403 | the sum of a concatenation is the sum of the parts |
| Evaluator.SumCons | app.py:403 | the sum of a list with a leading element adds that element |
| Evaluator.SumPermutation | app.py:403 | the sum does not depend on the order of the values |
| Evaluator.SumAtLeast | app.py:403 | n values sum to at least n times their minimum |
| Evaluator.SumAtMost | app.py:403 | n values sum to at most n times their maximum |
| Evaluator.MeanBetween | app.py:403 | the mean lies between the minimum and the maximum |
| Evaluator.ReadingsCount | app.py:398 | readings exist iff no entry is malformed, and each number occurs among the readings as often as among the entries (blanks dropped) |
| Evaluator.ReadingsBlankLast | app.py:398 | a trailing blank entry changes nothing |
| Evaluator.ScalarAverageOrderInvariant | app.py:398-404 | reordering the replicates never changes the average or the error |
| Evaluator.ScalarAverageBounds | app.py:398-404 | a successful average uses at least one reading and lies within rounding distance of the readings' range |
| Evaluator.ScalarAverageRounded | app.py:404 | the reported average is already rounded to two places |
| Evaluator.CollectPairs | app.py:586-593 | the pair loop returns exactly the specified pair values, or the first error |
| Evaluator.PairErrorPersists | app.py:587-592 | the first failing pair decides the error of the whole loop |
| Evaluator.ErrorStays | app.py:587-592 | once the loop has failed, later pairs do not change the outcome |
| Evaluator.PairValuesCount | app.py:590 | a pair contributes a value exactly when both of its entries are non-blank |
| Evaluator.ShortWeightInputRejected | app.py:587-589 | fewer than six entries refuse a weight-pair submission |
| Evaluator.ZeroInitialWeightRejected | app.py:613-617 | a zero initial weight in a complete moisture or ash pair refuses the submission |
| Evaluator.FullAshSubmission | app.py:638-649 | three complete ash pairs average `ash / initial x 100`, rounded to two places |
| Evaluator.JudgeMonotone | app.py:690-693 | widening the bounds can turn FAIL into PASS but never the reverse |
| Evaluator.FlowRateScenario | app.py:398-404 | [30, 31, blank, blank] averages 30.5 and passes 25..35; [40, 41] averages 40.5 and fails |
| Results.EmptyCols | app.py:782-785 | a fresh column group has the right number of cells, all null |
| Results.MeshRank | app.py:906-913 | each mesh group's position in the fixed mesh order |
| Results.MeshRankOfPosition | app.py:906-913 | the mesh group at position k has rank k |
| Results.NewRow | app.py:782-785 | an inserted row has every column group, category `incoming` and no final verdict |
| Results.PairCellsUpTo | app.py:829-845 | the pair writes keep the nine cells of a weight-pair group |
| Results.WeightColumns | app.py:821-892 | the weight-pair write loop returns exactly the specified cells, average and verdict, or the first error |
| Results.PairCellsErrorPersists | app.py:862-881 | the first failing pair write decides the error of the whole write |
| Results.PairCellsStep | app.py:862-881 | one pair write stores its own pair and leaves the other pairs' cells alone |
| Results.PairWritesTrack | app.py:829-845 | after the loop each pair holds its non-blank weights and, for a complete pair, the derived value rounded |
| Results.WeightWriteAfterAverage | app.py:821-892 | a weight-pair submission that averaged and has no malformed weight is written, each pair as specified |
| Results.UnpairedMalformedWeightRejected | app.py:866-868 | a malformed weight whose partner is blank passes the averaging but fails the write, refusing the submission |
| Results.AnalyteWriteShape | app.py:738-769 | a write keeps the group's shape and stores the average and the verdict |
| Results.ScalarWriteAfterAverage | app.py:750-764 | a scalar submission that averaged is written; each of the three cells becomes its reading, or keeps its old value for a blank or absent entry |
| Results.FourthReplicateNotStored | app.py:750-758 | a fourth replicate is averaged but stored in no column |
| Results.OverallParticleResult | app.py:433-436 | the particle-size result is FAIL iff some payload entry, under any key, is marked rejected |
| Results.MeshWritesUpTo | app.py:918-935 | the mesh writes keep every mesh group |
| Results.MeshWrites | app.py:918-935 | the mesh write loop returns exactly the specified groups, or the first error |
| Results.MeshErrorPersists | app.py:925-933 | the first malformed mesh field refuses the whole write |
| Results.MeshWritesVerdicts | app.py:918-935 | each written group's verdict is PASS iff its own entry is marked accepted; unwritten groups are untouched |
| Results.MeshWritesSucceed | app.py:925-933 | a payload with no malformed field is always written |
| Results.ScanFinalVerdict | app.py:1024-1030 | the scan returns FAIL exactly when some scanned column holds FAIL |
| Results.ColumnOfAnalyte | app.py:1026-1027 | an analyte's result column is among the scanned columns |
| Results.ColumnOfMesh | app.py:1026-1027 | a mesh group's result column is among the scanned columns |
| Results.ColumnSource | app.py:1026-1027 | every scanned column is an analyte result, a mesh result or the particle-size result |
| Results.FinalVerdictFailIff | app.py:1024-1030 | the final verdict is FAIL iff some analyte, some mesh group or the particle-size summary is FAIL |
| Inspection.ItemsVerdictFailIff | app.py:685-695 | the bound check is FAIL iff some resolved item has the submitted name and its set min exceeds the average or its set max is below it |
| Inspection.SpecVerdictMeaning | app.py:660-695 | with no progress or result row the verdict is PASS; otherwise a required analyte is judged against its own bounds and every other name passes |
| Inspection.UnknownNamePasses | app.py:685-695 | a name that is no analyte's, `ParticleSize` included, always passes |
| Inspection.RequiredAnalyteJudged | app.py:683-693 | a required analyte is judged against exactly its own bounds |
| Inspection.AdvanceIdempotent | app.py:986-989 | re-submitting an item changes nothing; the name is recorded and the count grows by one only for a new name |
| Inspection.AdvanceKeepsDistinct | app.py:986-987 | the completed list never holds a name twice |
| Inspection.RetiresIffAllCompleted | app.py:998 | when completed names are required and distinct, the row retires iff every required item is completed |
| Inspection.PrematureRetirement | app.py:986-998 | an unrequired name counts, so a row can retire with a required item never submitted |
| Inspection.BaseRow | app.py:771-785 | a write starts from the existing row, else a new row seeded from the progress row, else daily and `미지정` |
| Inspection.OnlyItemColumnsChange | app.py:738-819 | a save writes only the submitted analyte's columns, with its average and verdict; all other columns, the type and the inspector keep their values |
| Inspection.UnknownItemRefused | app.py:740-751 | a name with no result columns is refused and nothing is written |
| Inspection.ParticleWriteVerdicts | app.py:918-938 | the particle-size summary is FAIL iff an entry is rejected; each mesh group is PASS iff its entry is accepted; analyte columns are untouched |
| Inspection.MissingMeshForcesFinalFail | app.py:918-923 | a mesh group missing from the payload is written FAIL, which makes the final verdict FAIL |
| Inspection.Without | app.py:560-563 | removing a key from the row order keeps exactly the other keys |
| Inspection.WithoutDistinct | app.py:560-563 | removing a key keeps the row order free of duplicates |
| Inspection.PutRow | app.py:782-785 | inserting or replacing a well-formed row keeps the result table consistent with its row order |
| Inspection.ParticleRowWellFormed | app.py:937-938 | a particle-size write keeps the row well formed |
| Inspection.SetFinal | app.py:1032-1036 | setting the final verdict keeps the result table consistent |
| Inspection.FinalizeValid | app.py:1008-1038 | finalisation keeps the result table consistent |
| Inspection.DropRow | app.py:560-563 | deleting a row keeps the result table consistent with the reduced order |
| Inspection.ComputeAverage | app.py:389-404 | the dispatch averages the three weight-pair analytes by pairs and every other name as a scalar |
| Inspection.WriteColumns | app.py:738-769 | the column write is the specified write for the analyte's kind |
| Inspection.InspectionStore.StartInspection | app.py:217-317 | missing powder or lot is refused; an open progress row is resumed unchanged; a recorded result is reported as completed; no items is refused; otherwise one progress row with no completed items, the item names and `0/n` is added |
| Inspection.InspectionStore.CheckSpec | app.py:660-695 | the bound-check loop returns exactly the specified verdict |
| Inspection.InspectionStore.UpdateProgress | app.py:967-1006 | the progress row advances, retiring it and finalising when the counts meet; with no progress row it only finalises |
| Inspection.InspectionStore.UpdateFinalResult | app.py:1008-1038 | an existing row gets the scanned final verdict; without a row nothing changes |
| Inspection.InspectionStore.SaveItem | app.py:377-417 | a refused save changes nothing; otherwise the row is written and the progress advances |
| Inspection.InspectionStore.SaveParticleSize | app.py:423-445 | a refused save changes nothing; otherwise the mesh groups and the particle-size summary are written and the progress advances |
| Inspection.InspectionStore.DeleteIncompleteInspection | app.py:345-371 | only the progress row is removed, reporting whether it existed |
| Inspection.InspectionStore.DeleteInspection | app.py:548-576 | the progress and result rows are both removed |
| Blending.FirstIncoming | app.py:1782-1788 | finds the first incoming row of the lot in row order; the powder is not part of the key |
| Blending.ValidateLotIff | app.py:1774-1812 | validation passes with powder p iff the first incoming row of the lot has powder p and a PASS verdict |
| Blending.FailedLotAccepted | app.py:1831-1851 | a lot that validation refuses is still accepted for input when the powder matches |
| Blending.CheckAgreesWithValidation | app.py:1831-1851 | for a validated lot, input is accepted exactly for the powder validation reported |
| Blending.DeviationClose | app.py:1856-1857 | the stored deviation is within half a hundredth of the exact percentage |
| Blending.DeviationZero | app.py:1856 | the deviation is zero when the weight is on target or the target is not positive |
| Blending.DeviationMonotone | app.py:1856-1857 | a heavier actual weight never has a smaller deviation |
| Blending.DefaultToleranceMeaning | app.py:1860-1861 | with the default 5% tolerance and a positive target, inputs well within 5% are valid and inputs well beyond 5% are not |
| Blending.WorkInputs | app.py:1890-1893 | a work's inputs are exactly the recorded inputs with its id |
| Blending.Weights | app.py:1891 | the summed weights are the inputs' actual weights, in order |
| Blending.TotalAfterInput | app.py:1889-1901 | one more input raises its own work's total by its weight and no other work's |
| Blending.TotalOrderInvariant | app.py:1891 | a work's total does not depend on the order of the inputs |
| Blending.ActiveRecipes | app.py:1924-1929 | the expected lines are exactly the product's active recipe lines |
| Blending.CompletionCountsOnly | app.py:1924-1944 | two inputs of one powder complete a two-powder recipe; the gate never compares powders |
| Blending.LotPrefix | app.py:1691 | the day's prefix ends with a dash |
| Blending.LexLeqTotal | app.py:1700 | any two lots are ordered by string order |
| Blending.LexLeqTrans | app.py:1700 | string order is transitive |
| Blending.LatestLot | app.py:1697-1704 | the chosen lot is a same-day lot that no other same-day lot exceeds in string order |
| Blending.SameDayLots | app.py:1699 | same-day lots are exactly the lots with today's prefix |
| Blending.LastSegment | app.py:1709 | the suffix after the last dash holds no dash |
| Blending.LastSegmentAfterDash | app.py:1709 | the suffix of a prefixed lot is the part after the prefix |
| Blending.SuffixOfLot | app.py:1709-1715 | the suffix of a generated lot parses back to its number |
| Blending.NextBatchLotShape | app.py:1685-1715 | a generated lot has today's prefix, and its suffix is one past the latest same-day lot's, or 1 |
| Blending.ThreeAndFourDigits | app.py:1715 | lot 999 is written `999` and lot 1000 starts with `1` |
| Blending.NineHundredNinetyNineLatest | app.py:1700 | in string order lot 999 of a day sorts after lot 1000 |
| Blending.BatchLotRepeatsAfter999 | app.py:1697-1715 | with lots 999 and 1000 on record the generator proposes 1000 again, which exists |
| Blending.MaxSuffix | app.py:1709 | the numeric maximum bounds every parsable same-day suffix |
| Blending.NextBatchLotFixedFresh | app.py:1697-1715 | numbering by the numeric maximum never proposes an existing lot and starts the day at 001 |
| Blending.FirstPad | app.py:1713-1715 | the first lot of a day ends in `001` |
| Blending.WorkByBatchLot | app.py:1972-1977 | finds a work with that batch lot, and finds none only when no work has it |
| Blending.Usages | app.py:2046-2064 | the forward uses of a lot are exactly its inputs whose work exists, each joined with that work |
| Blending.SearchAgreesWithTraces | app.py:2077-2117 | the search reports a kind of lot iff the matching trace finds it, and fails iff neither does |
| Blending.TraceRoundTrip | app.py:1964-2072 | a use found forward appears, with the same incoming record, in the backward trace of its batch |
| Blending.RefreshTotal | app.py:1897-1901 | only the input's own work has its total rewritten |
| Blending.RecordKeepsStore | app.py:1868-1901 | recording an input keeps ids sequential, batch lots unique and every stored total equal to its inputs' sum |
| Blending.BlendingStore.StartBlendingWork | app.py:1649-1680 | a reused work order or batch lot is refused; otherwise one in-progress work with the next id is added |
| Blending.BlendingStore.SaveMaterialInput | app.py:1817-1911 | an unknown lot or a powder mismatch writes nothing; otherwise the input with its deviation and validity is recorded and its work's total re-summed |
| Blending.BlendingStore.CompleteBlendingWork | app.py:1916-1955 | refused while inputs are fewer than active recipe lines; otherwise the work is marked completed |
| Blending.BlendingStore.TraceByBatchLot | app.py:1964-2017 | the backward-trace loop returns exactly the specified trace, with no record for an uninspected lot |
| Client.BuildParticlePayload | static/js/app.js:503-524 | the payload loop returns exactly the specified payload |
| Client.KeysDistinct | static/js/app.js:507 | the six mesh keys are distinct |
| Client.PayloadKeys | static/js/app.js:509-523 | with at most six rows, the payload's keys are exactly the keys of the filled rows' positions |
| Client.PayloadValues | static/js/app.js:509-523 | each filled row's entry sits under its own position's key |
| Client.PayloadIgnoresMeshNames | static/js/app.js:507-517 | the key depends on the row's position, not on its mesh name |
| Client.OverallParticleFailIff | static/js/app.js:513-515 | together with the server's OR, the particle result is FAIL iff some filled row's rounded average is out of bounds |
| Client.MeshColumnFromRow | static/js/app.js:509-523 | a mesh group is written PASS iff the row at its position was filled and in range |
| Client.Drafts | static/js/app.js:1590-1607 | the collected lines are exactly the complete lines |
| Client.Ratios | static/js/app.js:1616 | the summed ratios are the lines' ratios, in order |
| Client.SubmitRecipe | static/js/app.js:1567-1620 | the handler's loops return exactly the specified decision |
| Client.RecipeSentIff | static/js/app.js:1574-1620 | a recipe is sent iff there is a product name and a complete line, and the ratios sum to within 0.1 of 100; only complete lines are sent |
| Client.RatioCheckScenario | static/js/app.js:1616-1620 | 60 and 40 go through; 60 and 40.2 are refused with total 100.2 |
| Client.SaveEnabledIff | static/js/app.js:1971-2007 | save is enabled iff the lot is not blank and its first incoming row names the expected powder with a PASS verdict |
| Client.GateThenInputAccepted | static/js/app.js:1987-1992 | a save the button allows is accepted by the input endpoint |
| Client.ServerGateVersusButton | static/js/app.js:1967-1968 | the server completes iff the button is enabled or there are more inputs than lines |
| Client.RepeatedPowderEnablesButton | static/js/app.js:1891-1892 | two inputs of one powder enable completion while the other line is not shown done |
| Client.ProgressDisplayStep | static/js/app.js:320-335 | a submission shows the item completed, counts it once, and leaves the label equal to the stored progress text |

## Left out

- HTTP routing, JSON request parsing and responses, and the SQLite layer (connections, commits, row ids) are not modelled. The tables are fields of the two store classes, and each endpoint is one method.
- Concurrency and transaction isolation are not modelled. The helpers open separate connections; the model treats requests as sequential, each completing before the next begins.
- Common.Round2: rounds exact reals half upwards. Python's `round` on binary floats (and JavaScript's `toFixed`) can round a tie the other way; floating-point error is not modelled.
- Evaluator.Readings: a submitted value is blank, a number or malformed. What counts as parsable (`nan`, `inf`, underscores, surrounding spaces) is not modelled.
- Evaluator.PairValues: treats a pair entry as present exactly when it is not blank. The source tests Python truthiness, which agrees for the strings the client sends, but a JSON number 0 would be falsy.
- Common.ParseNat: reads plain digit strings only. `int()` also accepts a sign, underscores and surrounding spaces.
- Blending.SameDayLots: matches the prefix case-sensitively. SQLite's `LIKE` also matches ASCII case variants such as a lowercase `batch-…` lot.
- Blending.Usages: lists the uses of a lot in input order. The source orders them by the work's start time, newest first, and the model has no timestamps.
- Clocks and timestamps are not modelled. Today's date is a parameter of batch-lot numbering. Start, end and inspection times, and `CURRENT_TIMESTAMP`, are not stored.
- Columns the core never reads back are not stored: product code, powder category, operator, validation message and inspection date.
- Blending.BlendingStore.StartBlendingWork: the source's check that the request carries every field (app.py:1642-1644) is left out, since the fields are parameters.
- Blending.BlendingStore.SaveMaterialInput: the source's check that the request carries every field (app.py:1823-1825) is left out, since the fields are parameters.
- The response messages and their wording are not modelled.
- The admin endpoints, the listing and search queries, and the schema and migration scripts are outside the modelled core.
- In the client, rendering, alerts and fetch plumbing are not modelled. A failed validation request is the reply `FetchFailed`.

## Findings

| source | as written | input that shows it | evidently intended | confidence | as-written member | corrected member |
|---|---|---|---|---|---|---|
| app.py:1697-1715 | the next batch lot is one past the suffix of the greatest same-day lot in string order (`ORDER BY batch_lot DESC`) | lots `BATCH-<date>-999` and `BATCH-<date>-1000` on record: string order picks `999`, so `BATCH-<date>-1000` is proposed again and the work start refuses it as a duplicate | one past the numerically greatest same-day suffix (`1001`), a lot not yet used | high for the input shown; not executed | Blending.BatchLotRepeatsAfter999 | Blending.NextBatchLotFixedFresh |
