// The browser-side decisions the server relies on: the particle-size
// payload, the recipe form check, the lot gate on the save button and the
// completion and progress displays.

module Client {
  import opened Common
  import opened Catalog
  import opened Evaluator
  import opened Results
  import opened Inspection
  import opened Blending

  /** The value of an `<input type="number">`: empty, or a number. */
  datatype Field = Empty | Entered(x: real)

  // ---------------------------------------------------------------------
  // Particle size payload (`saveParticleSize`)
  // ---------------------------------------------------------------------

  /** One rendered mesh row: its specification and its two inputs. */
  datatype BucketInput = BucketInput(spec: MeshSpec, first: Field, second: Field)

  /** `meshIds[index]`; past the sixth row the index is undefined and the
      object key becomes the text "undefined". */
  const UndefinedKey: string := "undefined"

  function KeyAt(i: nat): string
  {
    if i < |MeshIds| then MeshKey(MeshIds[i]) else UndefinedKey
  }

  /** `((v1 + v2) / 2).toFixed(1)`. */
  function BucketAverage(x1: real, x2: real): real
  {
    Round1((x1 + x2) / 2.0)
  }

  /** The entry of one row: only when both inputs are filled; accepted iff
      the rounded average lies within the bounds, both ends included. */
  function BucketEntry(b: BucketInput): Option<MeshEntry>
  {
    if b.first.Entered? && b.second.Entered? then
      var avg := BucketAverage(b.first.x, b.second.x);
      Some(MeshEntry(Number(b.first.x), Number(b.second.x), Number(avg),
                     if b.spec.min <= avg <= b.spec.max then Accepted else Rejected))
    else None
  }

  /** The payload after the first `n` rows; a later row overwrites an
      earlier one under the same key. */
  function PayloadUpTo(buckets: seq<BucketInput>, n: nat): map<string, MeshEntry>
    requires n <= |buckets|
  {
    if n == 0 then map[]
    else
      var prev := PayloadUpTo(buckets, n - 1);
      match BucketEntry(buckets[n - 1])
      case None => prev
      case Some(e) => prev[KeyAt(n - 1) := e]
  }

  /** The `forEach` loop filling `particleData`. */
  method BuildParticlePayload(buckets: seq<BucketInput>) returns (payload: map<string, MeshEntry>)
    ensures payload == PayloadUpTo(buckets, |buckets|)
  {
    payload := map[];
    for i := 0 to |buckets|
      invariant payload == PayloadUpTo(buckets, i)
    {
      var b := buckets[i];
      if b.first.Entered? && b.second.Entered? {
        var avg := BucketAverage(b.first.x, b.second.x);
        var mark := if b.spec.min <= avg <= b.spec.max then Accepted else Rejected;
        payload := payload[KeyAt(i) := MeshEntry(Number(b.first.x), Number(b.second.x), Number(avg), mark)];
      }
    }
  }

  lemma KeysDistinct(i: nat, j: nat)
    requires i < j < |MeshIds|
    ensures KeyAt(i) != KeyAt(j)
  {
    assert MeshIds[i] != MeshIds[j];
    match MeshIds[i] {
      case Mesh180 =>
      case Mesh150 =>
      case Mesh106 =>
      case Mesh75 =>
      case Mesh45 =>
      case Mesh45M =>
    }
  }

  /** With at most six rows, the payload's keys are exactly the keys of the
      filled rows' positions. */
  lemma {:induction false} PayloadKeys(buckets: seq<BucketInput>, n: nat)
    requires n <= |buckets| && n <= |MeshIds|
    ensures forall k :: k in PayloadUpTo(buckets, n) <==>
      exists i :: 0 <= i < n && KeyAt(i) == k && BucketEntry(buckets[i]).Some?
  {
    if n > 0 {
      PayloadKeys(buckets, n - 1);
      var prev := PayloadUpTo(buckets, n - 1);
      match BucketEntry(buckets[n - 1]) {
        case None =>
          assert PayloadUpTo(buckets, n) == prev;
        case Some(e) =>
          assert PayloadUpTo(buckets, n) == prev[KeyAt(n - 1) := e];
      }
    }
  }

  /** With at most six rows, every filled row's entry sits under its own
      position's key: no later row overwrites it. */
  lemma {:induction false} PayloadValues(buckets: seq<BucketInput>, n: nat)
    requires n <= |buckets| && n <= |MeshIds|
    ensures forall i :: 0 <= i < n && BucketEntry(buckets[i]).Some? ==>
      KeyAt(i) in PayloadUpTo(buckets, n) && PayloadUpTo(buckets, n)[KeyAt(i)] == BucketEntry(buckets[i]).value
  {
    if n > 0 {
      PayloadValues(buckets, n - 1);
      var prev := PayloadUpTo(buckets, n - 1);
      var last := KeyAt(n - 1);
      forall i | 0 <= i < n - 1 ensures KeyAt(i) != last {
        KeysDistinct(i, n - 1);
      }
      match BucketEntry(buckets[n - 1]) {
        case None =>
          assert PayloadUpTo(buckets, n) == prev;
        case Some(e) =>
          assert PayloadUpTo(buckets, n) == prev[last := e];
      }
    }
  }

  /** Which key a mesh row lands under depends on its position only, not
      on the mesh name of its specification. */
  lemma {:induction false} PayloadIgnoresMeshNames(buckets: seq<BucketInput>, renamed: seq<BucketInput>, n: nat)
    requires |buckets| == |renamed| && n <= |buckets|
    requires forall i :: 0 <= i < |buckets| ==>
      renamed[i] == buckets[i].(spec := buckets[i].spec.(meshSize := renamed[i].spec.meshSize))
    ensures PayloadUpTo(buckets, n) == PayloadUpTo(renamed, n)
  {
    if n > 0 {
      PayloadIgnoresMeshNames(buckets, renamed, n - 1);
      assert BucketEntry(buckets[n - 1]) == BucketEntry(renamed[n - 1]);
    }
  }

  /** The verdict a row's inputs earn on the client. */
  predicate BucketOutOfRange(b: BucketInput)
  {
    b.first.Entered? && b.second.Entered?
    && !(b.spec.min <= BucketAverage(b.first.x, b.second.x) <= b.spec.max)
  }

  /** End to end with the server's OR: the particle result is FAIL iff some
      filled row's rounded average is out of its bounds. */
  lemma OverallParticleFailIff(buckets: seq<BucketInput>)
    requires |buckets| <= |MeshIds|
    ensures HasRejected(PayloadUpTo(buckets, |buckets|)) <==>
      exists i :: 0 <= i < |buckets| && BucketOutOfRange(buckets[i])
  {
    var p := PayloadUpTo(buckets, |buckets|);
    PayloadKeys(buckets, |buckets|);
    PayloadValues(buckets, |buckets|);
    if HasRejected(p) {
      var k :| k in p && p[k].mark == Rejected;
      var i :| 0 <= i < |buckets| && KeyAt(i) == k && BucketEntry(buckets[i]).Some?;
      assert BucketOutOfRange(buckets[i]);
    }
    if exists i :: 0 <= i < |buckets| && BucketOutOfRange(buckets[i]) {
      var i :| 0 <= i < |buckets| && BucketOutOfRange(buckets[i]);
      assert p[KeyAt(i)].mark == Rejected;
    }
  }

  /** End to end with the column write: mesh group `m` is written PASS iff
      the row at `m`'s position exists, was filled, and was in range. */
  lemma MeshColumnFromRow(buckets: seq<BucketInput>, m: MeshId)
    requires |buckets| <= |MeshIds|
    ensures var e := EntryOf(PayloadUpTo(buckets, |buckets|), m);
      e.mark == Accepted <==>
        MeshRank(m) < |buckets| && BucketEntry(buckets[MeshRank(m)]).Some?
        && !BucketOutOfRange(buckets[MeshRank(m)])
  {
    var p := PayloadUpTo(buckets, |buckets|);
    var r := MeshRank(m);
    assert KeyAt(r) == MeshKey(m);
    if r < |buckets| && BucketEntry(buckets[r]).Some? {
      PayloadValues(buckets, |buckets|);
      assert EntryOf(p, m) == BucketEntry(buckets[r]).value;
    } else {
      PayloadKeys(buckets, |buckets|);
      forall i | 0 <= i < |buckets| && KeyAt(i) == MeshKey(m) ensures i == r {
        if i < r { KeysDistinct(i, r); } else if r < i { KeysDistinct(r, i); }
      }
      assert EntryOf(p, m) == AbsentEntry;
    }
  }

  // ---------------------------------------------------------------------
  // Recipe form (`productForm` submit handler)
  // ---------------------------------------------------------------------

  /** One `.recipe-line`: the trimmed powder name and two number inputs. */
  datatype RecipeLine = RecipeLine(powder: string, ratio: Field, tolerance: Field)

  /** The object pushed for a complete line. */
  datatype RecipeDraft = RecipeDraft(productName: string, powder: string, ratio: real, tolerance: real)

  predicate LineComplete(l: RecipeLine)
  {
    l.powder != "" && l.ratio.Entered? && l.tolerance.Entered?
  }

  /** The complete lines, in form order. */
  function Drafts(product: string, lines: seq<RecipeLine>): (r: seq<RecipeDraft>)
    ensures |r| <= |lines|
    ensures forall d :: d in r <==> exists l :: (l in lines && LineComplete(l)
      && d == RecipeDraft(product, l.powder, l.ratio.x, l.tolerance.x))
  {
    if lines == [] then []
    else
      var init := Drafts(product, lines[..|lines| - 1]);
      var l := lines[|lines| - 1];
      assert lines == lines[..|lines| - 1] + [l];
      if LineComplete(l) then init + [RecipeDraft(product, l.powder, l.ratio.x, l.tolerance.x)] else init
  }

  function Ratios(ds: seq<RecipeDraft>): (r: seq<real>)
    ensures |r| == |ds| && forall i :: 0 <= i < |ds| ==> r[i] == ds[i].ratio
  {
    seq(|ds|, i requires 0 <= i < |ds| => ds[i].ratio)
  }

  datatype RecipeSubmit =
    | NoProductName
    | NoLines
    | NoCompleteLine
    | RatioSumOff(total: real)
    | SendRecipes(drafts: seq<RecipeDraft>)

  /** The form's decision. */
  function RecipeSubmission(product: string, lines: seq<RecipeLine>): RecipeSubmit
  {
    if product == "" then NoProductName
    else if lines == [] then NoLines
    else
      var ds := Drafts(product, lines);
      if ds == [] then NoCompleteLine
      else if Abs(Sum(Ratios(ds)) - 100.0) > 0.1 then RatioSumOff(Sum(Ratios(ds)))
      else SendRecipes(ds)
  }

  /** The handler: the `forEach` collecting lines, then the checks. */
  method SubmitRecipe(product: string, lines: seq<RecipeLine>) returns (out: RecipeSubmit)
    ensures out == RecipeSubmission(product, lines)
  {
    if product == "" {
      return NoProductName;
    }
    if |lines| == 0 {
      return NoLines;
    }
    var drafts: seq<RecipeDraft> := [];
    for i := 0 to |lines|
      invariant drafts == Drafts(product, lines[..i])
    {
      var l := lines[i];
      assert lines[..i + 1] == lines[..i] + [l];
      if l.powder != "" && l.ratio.Entered? && l.tolerance.Entered? {
        drafts := drafts + [RecipeDraft(product, l.powder, l.ratio.x, l.tolerance.x)];
      }
    }
    assert lines[..|lines|] == lines;
    if |drafts| == 0 {
      return NoCompleteLine;
    }
    var total := 0.0;
    for i := 0 to |drafts|
      invariant total == Sum(Ratios(drafts[..i]))
    {
      assert Ratios(drafts[..i + 1]) == Ratios(drafts[..i]) + [drafts[i].ratio];
      assert Ratios(drafts[..i + 1])[..i] == Ratios(drafts[..i]);
      total := total + drafts[i].ratio;
    }
    assert drafts[..|drafts|] == drafts;
    if Abs(total - 100.0) > 0.1 {
      return RatioSumOff(total);
    }
    out := SendRecipes(drafts);
  }

  /** What is sent: every complete line, only complete lines, and ratios
      summing to within 0.1 of 100. */
  lemma RecipeSentIff(product: string, lines: seq<RecipeLine>)
    ensures RecipeSubmission(product, lines).SendRecipes? <==>
      product != "" && (exists l :: l in lines && LineComplete(l))
      && 99.9 <= Sum(Ratios(Drafts(product, lines))) <= 100.1
    ensures RecipeSubmission(product, lines).SendRecipes? ==>
      forall d :: d in RecipeSubmission(product, lines).drafts ==> d.powder != "" && d.productName == product
  {
    var ds := Drafts(product, lines);
    if exists l :: l in lines && LineComplete(l) {
      var l :| l in lines && LineComplete(l);
      assert RecipeDraft(product, l.powder, l.ratio.x, l.tolerance.x) in ds;
    }
  }

  /** A 60/40 recipe goes through; 60/40.2 is refused with the total. */
  lemma RatioCheckScenario(product: string, a: string, b: string)
    requires product != "" && a != "" && b != ""
    ensures RecipeSubmission(product, [RecipeLine(a, Entered(60.0), Entered(5.0)),
                                       RecipeLine(b, Entered(40.0), Entered(5.0))]).SendRecipes?
    ensures RecipeSubmission(product, [RecipeLine(a, Entered(60.0), Entered(5.0)),
                                       RecipeLine(b, Entered(40.2), Entered(5.0))]) == RatioSumOff(100.2)
  {
    var l1 := [RecipeLine(a, Entered(60.0), Entered(5.0)), RecipeLine(b, Entered(40.0), Entered(5.0))];
    var l2 := [RecipeLine(a, Entered(60.0), Entered(5.0)), RecipeLine(b, Entered(40.2), Entered(5.0))];
    assert l1[..1] == [l1[0]] && l2[..1] == [l2[0]];
    assert Drafts(product, l1[..1]) == [RecipeDraft(product, a, 60.0, 5.0)];
    assert Drafts(product, l2[..1]) == [RecipeDraft(product, a, 60.0, 5.0)];
    var d1 := Drafts(product, l1);
    var d2 := Drafts(product, l2);
    assert d1 == [RecipeDraft(product, a, 60.0, 5.0), RecipeDraft(product, b, 40.0, 5.0)];
    assert d2 == [RecipeDraft(product, a, 60.0, 5.0), RecipeDraft(product, b, 40.2, 5.0)];
    assert Ratios(d1) == [60.0, 40.0];
    assert Ratios(d2) == [60.0, 40.2];
    assert [60.0, 40.0][..1] == [60.0] && [60.0, 40.2][..1] == [60.0];
    assert Sum([60.0]) == Sum([]) + 60.0;
  }

  // ---------------------------------------------------------------------
  // Lot gate on the save button (`validateLot`)
  // ---------------------------------------------------------------------

  /** The validation reply as the page sees it; a failed request is
      `FetchFailed`. */
  datatype LotReply = Reply(check: LotCheck) | FetchFailed

  /** Save is enabled only for a non-blank lot that the server reports
      valid for the expected powder. */
  predicate SaveEnabled(lotText: string, expected: string, reply: LotReply)
  {
    lotText != "" && reply.Reply? && reply.check.Passed? && reply.check.powder == expected
  }

  /** With the reply of `validate_material_lot` over the current tables,
      the button is enabled iff the first incoming row of the lot names
      the expected powder and carries a PASS verdict. */
  lemma SaveEnabledIff(results: map<LotKey, ResultRow>, order: seq<LotKey>, lotText: string, expected: string)
    ensures SaveEnabled(lotText, expected, Reply(ValidateLot(results, order, lotText))) <==>
      lotText != "" && FirstIncoming(results, order, lotText).Some?
      && FirstIncoming(results, order, lotText).value.powder == expected
      && results[FirstIncoming(results, order, lotText).value].finalResult == Some(Pass)
  {
  }

  /** The gate closes the hole the input endpoint leaves open: a save the
      button allows is accepted by the endpoint, and only for a lot whose
      incoming verdict is PASS. */
  lemma GateThenInputAccepted(results: map<LotKey, ResultRow>, order: seq<LotKey>, lotText: string, expected: string)
    requires SaveEnabled(lotText, expected, Reply(ValidateLot(results, order, lotText)))
    ensures CheckMaterial(results, order, lotText, expected) == SameMaterial
    ensures ValidateLot(results, order, lotText) == Passed(expected)
  {
    SaveEnabledIff(results, order, lotText, expected);
  }

  // ---------------------------------------------------------------------
  // Completion and progress displays
  // ---------------------------------------------------------------------

  /** A recipe line is shown done iff some input has its powder name. */
  predicate LineDone(powder: string, inputs: seq<MaterialInput>)
  {
    exists x :: x in inputs && x.powder == powder
  }

  /** The complete button is enabled iff the counts are equal. */
  predicate CompleteEnabled(inputs: seq<MaterialInput>, recipes: seq<Recipe>)
  {
    |inputs| == |recipes|
  }

  /** On the page of work `w` (the work's active recipe lines and its
      inputs) the server completes exactly when the button is enabled or
      there are more inputs than lines: an enabled button is always
      honoured, and a surplus input disables the button though the server
      would complete. */
  lemma ServerGateVersusButton(recipes: seq<Recipe>, works: seq<BlendingWork>, inputs: seq<MaterialInput>, w: int)
    requires 1 <= w <= |works|
    ensures var mine := WorkInputs(inputs, w);
      var shown := ActiveRecipes(recipes, works[w - 1].productName);
      !(|mine| < ExpectedInputs(recipes, works, w)) <==> CompleteEnabled(mine, shown) || |mine| > |shown|
  {
  }

  /** The button counts and does not compare powders: two inputs of one
      powder enable it for a two-powder recipe whose other line is not
      shown done. */
  lemma RepeatedPowderEnablesButton(product: string, powderA: string, powderB: string, lot: string)
    requires powderA != powderB
    ensures var recipes := [Recipe(product, powderA, 50.0, true), Recipe(product, powderB, 50.0, true)];
      var inputs := [MaterialInput(1, 1, powderA, lot, 50.0, 50.0, 0.0, true),
                     MaterialInput(2, 1, powderA, lot, 50.0, 50.0, 0.0, true)];
      CompleteEnabled(WorkInputs(inputs, 1), ActiveRecipes(recipes, product))
      && !LineDone(powderB, WorkInputs(inputs, 1))
  {
    var recipes := [Recipe(product, powderA, 50.0, true), Recipe(product, powderB, 50.0, true)];
    var inputs := [MaterialInput(1, 1, powderA, lot, 50.0, 50.0, 0.0, true),
                   MaterialInput(2, 1, powderA, lot, 50.0, 50.0, 0.0, true)];
    ActiveRecipesAll(recipes, product);
    WorkInputsAll(inputs, 1);
  }

  /** An inspection item is shown completed iff its name was recorded. */
  predicate ItemShownCompleted(name: string, completed: seq<string>)
  {
    name in completed
  }

  /** `${completed.length}/${total.length}`. */
  function ProgressLabel(completed: seq<string>, total: seq<string>): string
  {
    ProgressText(|completed|, |total|)
  }

  /** A live progress row shows fewer completed than total items, and one
      submission shows the item completed, raises the count by one unless
      it was already shown, and leaves the label equal to the stored text;
      a row that stays live still shows fewer completed than total. */
  lemma ProgressDisplayStep(row: ProgressRow, name: string)
    requires |row.completed| < |row.total|
    ensures var r := Advance(row, name);
      ItemShownCompleted(name, r.completed)
      && |r.completed| == |row.completed| + (if ItemShownCompleted(name, row.completed) then 0 else 1)
      && r.progress == ProgressLabel(r.completed, r.total)
      && (!Retires(r) ==> |r.completed| < |r.total|)
  {
    AdvanceIdempotent(row, name);
  }
}
