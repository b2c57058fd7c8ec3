// Blending: work orders, material inputs checked against incoming
// inspection, the completion gate, batch lot numbering and traceability
// between blended batches and the incoming lots that went into them.

module Blending {
  import opened Common
  import opened Catalog
  import opened Evaluator
  import opened Results
  import opened Inspection

  // ---------------------------------------------------------------------
  // Rows
  // ---------------------------------------------------------------------

  datatype WorkStatus = InProgress | Completed

  /** A `blending_work` row. `actualTotal` is null until the first input. */
  datatype BlendingWork = BlendingWork(
    id: int, workOrder: string, productName: string, batchLot: string,
    targetTotal: real, actualTotal: Option<real>, operator: string, status: WorkStatus)

  /** A `material_input` row. `workId` is not checked against the work
      table: foreign keys are not enforced on the connection. */
  datatype MaterialInput = MaterialInput(
    id: int, workId: int, powder: string, materialLot: string,
    target: real, actual: real, deviation: real, isValid: bool)

  /** A `recipe` line. */
  datatype Recipe = Recipe(productName: string, powder: string, ratio: real, active: bool)

  // ---------------------------------------------------------------------
  // Looking a lot up in incoming inspection
  // ---------------------------------------------------------------------

  /** `lot_number = ? AND category = 'incoming'` for the row at `k`. */
  predicate IsIncoming(results: map<LotKey, ResultRow>, k: LotKey, lot: string)
  {
    k in results && k.lot == lot && results[k].category == Incoming
  }

  /** The row `fetchone` returns: the first match in rowid order. The
      powder name is not part of the lookup. */
  function FirstIncoming(results: map<LotKey, ResultRow>, order: seq<LotKey>, lot: string): (r: Option<LotKey>)
    ensures r.None? <==> forall k :: k in order ==> !IsIncoming(results, k, lot)
    ensures r.Some? ==> exists i :: (0 <= i < |order| && order[i] == r.value
      && IsIncoming(results, order[i], lot)
      && forall j :: 0 <= j < i ==> !IsIncoming(results, order[j], lot))
  {
    if order == [] then None
    else if IsIncoming(results, order[0], lot) then Some(order[0])
    else
      var r := FirstIncoming(results, order[1..], lot);
      assert forall k :: k in order[1..] ==> k in order;
      assert forall k :: k in order && k != order[0] ==> k in order[1..];
      if r.Some? then
        assert exists i :: (1 <= i < |order| && order[i] == r.value
          && IsIncoming(results, order[i], lot)
          && forall j :: 0 <= j < i ==> !IsIncoming(results, order[j], lot)) by {
          var i :| 0 <= i < |order[1..]| && order[1..][i] == r.value
            && IsIncoming(results, order[1..][i], lot)
            && forall j :: 0 <= j < i ==> !IsIncoming(results, order[1..][j], lot);
          assert forall j :: 0 <= j < i + 1 ==> !IsIncoming(results, order[j], lot) by {
            forall j | 0 <= j < i + 1 ensures !IsIncoming(results, order[j], lot) {
              if j > 0 { assert order[j] == order[1..][j - 1]; }
            }
          }
          assert order[i + 1] == r.value;
        }
        r
      else r
  }

  /** What `validate_material_lot` answers. */
  datatype LotCheck = NoRecord | NotPassed(powder: string) | Passed(powder: string)

  function ValidateLot(results: map<LotKey, ResultRow>, order: seq<LotKey>, lot: string): LotCheck
  {
    match FirstIncoming(results, order, lot)
    case None => NoRecord
    case Some(k) => if results[k].finalResult == Some(Pass) then Passed(k.powder) else NotPassed(k.powder)
  }

  /** The identity check at the head of `save_material_input`. */
  datatype MaterialGate = UnknownLot | WrongMaterial(actualPowder: string) | SameMaterial

  function CheckMaterial(results: map<LotKey, ResultRow>, order: seq<LotKey>, lot: string, powder: string): MaterialGate
  {
    match FirstIncoming(results, order, lot)
    case None => UnknownLot
    case Some(k) => if k.powder != powder then WrongMaterial(k.powder) else SameMaterial
  }

  /** Validation passes only on a PASS verdict, and a lot still under
      inspection (no final verdict yet) does not pass. */
  lemma ValidateLotIff(results: map<LotKey, ResultRow>, order: seq<LotKey>, lot: string, powder: string)
    ensures ValidateLot(results, order, lot) == Passed(powder) <==>
      exists i :: 0 <= i < |order| && IsIncoming(results, order[i], lot)
        && (forall j :: 0 <= j < i ==> !IsIncoming(results, order[j], lot))
        && order[i].powder == powder && results[order[i]].finalResult == Some(Pass)
  {
    var f := FirstIncoming(results, order, lot);
    if ValidateLot(results, order, lot) == Passed(powder) {
      var i :| 0 <= i < |order| && order[i] == f.value && IsIncoming(results, order[i], lot)
        && forall j :: 0 <= j < i ==> !IsIncoming(results, order[j], lot);
    }
    if exists i :: 0 <= i < |order| && IsIncoming(results, order[i], lot)
        && (forall j :: 0 <= j < i ==> !IsIncoming(results, order[j], lot))
        && order[i].powder == powder && results[order[i]].finalResult == Some(Pass) {
      var i :| 0 <= i < |order| && IsIncoming(results, order[i], lot)
        && (forall j :: 0 <= j < i ==> !IsIncoming(results, order[j], lot))
        && order[i].powder == powder && results[order[i]].finalResult == Some(Pass);
      assert f.Some?;
      var i' :| 0 <= i' < |order| && order[i'] == f.value && IsIncoming(results, order[i'], lot)
        && forall j :: 0 <= j < i' ==> !IsIncoming(results, order[j], lot);
      assert i == i';
    }
  }

  /** The input endpoint does not look at the verdict: a lot that
      validation refuses is still accepted when the powder matches. */
  lemma FailedLotAccepted(results: map<LotKey, ResultRow>, order: seq<LotKey>, lot: string)
    requires ValidateLot(results, order, lot).NotPassed?
    ensures CheckMaterial(results, order, lot, ValidateLot(results, order, lot).powder) == SameMaterial
  {
  }

  /** Where validation passes, the input check agrees with it: the lot is
      accepted for exactly the powder validation reported. */
  lemma CheckAgreesWithValidation(results: map<LotKey, ResultRow>, order: seq<LotKey>, lot: string, powder: string)
    requires ValidateLot(results, order, lot).Passed?
    ensures CheckMaterial(results, order, lot, powder) == SameMaterial
      <==> powder == ValidateLot(results, order, lot).powder
  {
  }

  // ---------------------------------------------------------------------
  // Weight deviation
  // ---------------------------------------------------------------------

  const DefaultTolerance: real := 5.0

  function Abs(x: real): real { if x < 0.0 then -x else x }

  /** The deviation before rounding, in percent of the target; zero for a
      target that is not positive. */
  function RawDeviation(target: real, actual: real): real
  {
    if target > 0.0 then (actual - target) / target * 100.0 else 0.0
  }

  /** `round(..., 2)` of the raw deviation. */
  function Deviation(target: real, actual: real): real
  {
    Round2(RawDeviation(target, actual))
  }

  /** The stored deviation is within half a hundredth of the exact one. */
  lemma DeviationClose(target: real, actual: real)
    ensures RawDeviation(target, actual) - 0.005 < Deviation(target, actual) <= RawDeviation(target, actual) + 0.005
  {
    RoundAtClose(RawDeviation(target, actual), 100.0);
  }

  /** An input on target, or against a non-positive target, deviates by 0. */
  lemma DeviationZero(target: real, actual: real)
    requires actual == target || target <= 0.0
    ensures Deviation(target, actual) == 0.0
  {
    assert RawDeviation(target, actual) == 0.0;
    RoundAtOfGrid(0, 100.0);
  }

  /** More material never means a smaller deviation. */
  lemma DeviationMonotone(target: real, a1: real, a2: real)
    requires a1 <= a2
    ensures Deviation(target, a1) <= Deviation(target, a2)
  {
    if target > 0.0 {
      DivMonotone(a1 - target, a2 - target, target);
      MulMonotone((a1 - target) / target, (a2 - target) / target, 100.0);
    }
    RoundAtMonotone(RawDeviation(target, a1), RawDeviation(target, a2), 100.0);
  }

  /** The row `save_material_input` inserts. */
  function NewInput(id: int, workId: int, powder: string, lot: string, target: real, actual: real,
                    tolerance: Option<real>): MaterialInput
  {
    var dev := Deviation(target, actual);
    var tol := if tolerance.Some? then tolerance.value else DefaultTolerance;
    MaterialInput(id, workId, powder, lot, target, actual, dev, Abs(dev) <= tol)
  }

  /** An input within 5% (less the rounding) of a positive target is valid
      under the default tolerance, and one beyond 5% plus the rounding is
      not. */
  lemma DefaultToleranceMeaning(id: int, workId: int, powder: string, lot: string, target: real, actual: real)
    requires target > 0.0
    ensures var x := NewInput(id, workId, powder, lot, target, actual, None);
      (Abs(RawDeviation(target, actual)) <= 4.995 ==> x.isValid)
      && (Abs(RawDeviation(target, actual)) > 5.005 ==> !x.isValid)
  {
    DeviationClose(target, actual);
  }

  // ---------------------------------------------------------------------
  // Totals and counts
  // ---------------------------------------------------------------------

  /** `WHERE blending_work_id = ? ORDER BY id`. */
  function WorkInputs(inputs: seq<MaterialInput>, w: int): (r: seq<MaterialInput>)
    ensures forall x :: x in r <==> x in inputs && x.workId == w
    ensures |r| <= |inputs|
  {
    if inputs == [] then []
    else
      var init := WorkInputs(inputs[..|inputs| - 1], w);
      var last := inputs[|inputs| - 1];
      assert inputs == inputs[..|inputs| - 1] + [last];
      if last.workId == w then init + [last] else init
  }

  function Weights(xs: seq<MaterialInput>): (r: seq<real>)
    ensures |r| == |xs| && forall i :: 0 <= i < |xs| ==> r[i] == xs[i].actual
  {
    seq(|xs|, i requires 0 <= i < |xs| => xs[i].actual)
  }

  /** `COALESCE(SUM(actual_weight), 0)` over the work's inputs. */
  function WorkTotal(inputs: seq<MaterialInput>, w: int): real
  {
    Sum(Weights(WorkInputs(inputs, w)))
  }

  /** One more input raises its own work's total by its weight and leaves
      every other work's total alone. */
  lemma TotalAfterInput(inputs: seq<MaterialInput>, x: MaterialInput, w: int)
    ensures WorkTotal(inputs + [x], w) == WorkTotal(inputs, w) + (if x.workId == w then x.actual else 0.0)
  {
    var s := inputs + [x];
    assert s[..|s| - 1] == inputs;
    var m := WorkInputs(inputs, w);
    if x.workId == w {
      assert Weights(m + [x]) == Weights(m) + [x.actual];
      SumAppend(Weights(m), [x.actual]);
      assert Sum([x.actual]) == Sum([]) + x.actual;
    }
  }

  /** The weight of an input counts towards its own work's total however
      the other inputs are arranged. */
  lemma TotalOrderInvariant(inputs: seq<MaterialInput>, permuted: seq<MaterialInput>, w: int)
    requires multiset(inputs) == multiset(permuted)
    ensures WorkTotal(inputs, w) == WorkTotal(permuted, w)
  {
    WorkInputsMultiset(inputs, w);
    WorkInputsMultiset(permuted, w);
    WeightsMultiset(WorkInputs(inputs, w), WorkInputs(permuted, w));
    SumPermutation(Weights(WorkInputs(inputs, w)), Weights(WorkInputs(permuted, w)));
  }

  lemma {:induction false} WorkInputsMultiset(inputs: seq<MaterialInput>, w: int)
    ensures forall x :: multiset(WorkInputs(inputs, w))[x] == if x.workId == w then multiset(inputs)[x] else 0
  {
    if inputs != [] {
      var init := inputs[..|inputs| - 1];
      var last := inputs[|inputs| - 1];
      assert inputs == init + [last];
      WorkInputsMultiset(init, w);
    }
  }

  lemma {:induction false} WeightsMultiset(xs: seq<MaterialInput>, ys: seq<MaterialInput>)
    requires multiset(xs) == multiset(ys)
    ensures multiset(Weights(xs)) == multiset(Weights(ys))
    decreases |xs|
  {
    if xs == [] {
      assert |ys| == |multiset(ys)| == 0;
    } else {
      var x := xs[0];
      assert x in multiset(ys);
      var i :| 0 <= i < |ys| && ys[i] == x;
      var rest := ys[..i] + ys[i + 1..];
      RemoveMatched(xs, ys, i);
      WeightsMultiset(xs[1..], rest);
      WeightsRemove(ys, i);
      assert Weights(xs) == [x.actual] + Weights(xs[1..]);
      assert multiset(Weights(xs)) == multiset{x.actual} + multiset(Weights(xs[1..]));
    }
  }

  /** Taking the same element out of two equal multisets. */
  lemma RemoveMatched<T>(xs: seq<T>, ys: seq<T>, i: nat)
    requires multiset(xs) == multiset(ys) && xs != [] && i < |ys| && ys[i] == xs[0]
    ensures multiset(xs[1..]) == multiset(ys[..i] + ys[i + 1..])
  {
    assert ys == ys[..i] + [ys[i]] + ys[i + 1..];
    assert xs == [xs[0]] + xs[1..];
    assert multiset(xs[1..]) == multiset(xs) - multiset{xs[0]};
  }

  lemma WeightsRemove(ys: seq<MaterialInput>, i: nat)
    requires i < |ys|
    ensures multiset(Weights(ys)) == multiset(Weights(ys[..i] + ys[i + 1..])) + multiset{ys[i].actual}
  {
    var w := Weights(ys);
    assert w == w[..i] + [ys[i].actual] + w[i + 1..];
    assert Weights(ys[..i] + ys[i + 1..]) == w[..i] + w[i + 1..];
  }

  /** `is_active = 1` lines of a product. */
  function ActiveRecipes(recipes: seq<Recipe>, product: string): (r: seq<Recipe>)
    ensures forall x :: x in r <==> x in recipes && x.productName == product && x.active
  {
    if recipes == [] then []
    else
      var init := ActiveRecipes(recipes[..|recipes| - 1], product);
      var last := recipes[|recipes| - 1];
      assert recipes == recipes[..|recipes| - 1] + [last];
      if last.productName == product && last.active then init + [last] else init
  }

  /** The work with id `w`, ids being 1, 2, ... in insertion order. */
  function WorkWithId(works: seq<BlendingWork>, w: int): Option<BlendingWork>
  {
    if 1 <= w <= |works| then Some(works[w - 1]) else None
  }

  /** The recipe count the completion gate expects: no work means the
      product-name subquery is null and nothing matches it. */
  function ExpectedInputs(recipes: seq<Recipe>, works: seq<BlendingWork>, w: int): nat
  {
    match WorkWithId(works, w)
    case None => 0
    case Some(work) => |ActiveRecipes(recipes, work.productName)|
  }

  /** A table holding only the work's inputs is returned whole. */
  lemma {:induction false} WorkInputsAll(inputs: seq<MaterialInput>, w: int)
    requires forall i :: 0 <= i < |inputs| ==> inputs[i].workId == w
    ensures WorkInputs(inputs, w) == inputs
  {
    if inputs != [] {
      WorkInputsAll(inputs[..|inputs| - 1], w);
      assert inputs == inputs[..|inputs| - 1] + [inputs[|inputs| - 1]];
    }
  }

  /** A recipe table holding only the product's active lines is returned
      whole. */
  lemma {:induction false} ActiveRecipesAll(recipes: seq<Recipe>, product: string)
    requires forall i :: 0 <= i < |recipes| ==> recipes[i].productName == product && recipes[i].active
    ensures ActiveRecipes(recipes, product) == recipes
  {
    if recipes != [] {
      ActiveRecipesAll(recipes[..|recipes| - 1], product);
      assert recipes == recipes[..|recipes| - 1] + [recipes[|recipes| - 1]];
    }
  }

  /** The gate counts and never compares powders: two inputs of the same
      powder complete a two-powder recipe. */
  lemma CompletionCountsOnly(powderA: string, powderB: string, lot: string)
    requires powderA != powderB
    ensures var recipes := [Recipe("P", powderA, 50.0, true), Recipe("P", powderB, 50.0, true)];
      var works := [BlendingWork(1, "W", "P", "B", 100.0, None, "", InProgress)];
      var inputs := [MaterialInput(1, 1, powderA, lot, 50.0, 50.0, 0.0, true),
                     MaterialInput(2, 1, powderA, lot, 50.0, 50.0, 0.0, true)];
      !(|WorkInputs(inputs, 1)| < ExpectedInputs(recipes, works, 1))
      && forall x :: x in WorkInputs(inputs, 1) ==> x.powder != powderB
  {
    var recipes := [Recipe("P", powderA, 50.0, true), Recipe("P", powderB, 50.0, true)];
    var inputs := [MaterialInput(1, 1, powderA, lot, 50.0, 50.0, 0.0, true),
                   MaterialInput(2, 1, powderA, lot, 50.0, 50.0, 0.0, true)];
    ActiveRecipesAll(recipes, "P");
    WorkInputsAll(inputs, 1);
  }

  // ---------------------------------------------------------------------
  // Batch lot numbers
  // ---------------------------------------------------------------------

  predicate StartsWith(s: string, p: string)
  {
    |p| <= |s| && s[..|p|] == p
  }

  /** `BATCH-<date>-`. */
  function LotPrefix(today: string): (p: string)
    ensures |p| > 0 && p[|p| - 1] == '-'
  {
    "BATCH-" + today + "-"
  }

  /** `ORDER BY batch_lot`: byte-wise (here character-wise) comparison. */
  predicate LexLeq(a: string, b: string)
    decreases |a|
  {
    a == [] || (b != [] && (a[0] < b[0] || (a[0] == b[0] && LexLeq(a[1..], b[1..]))))
  }

  lemma {:induction false} LexLeqTotal(a: string, b: string)
    ensures LexLeq(a, b) || LexLeq(b, a)
    decreases |a|
  {
    if a != [] && b != [] && a[0] == b[0] {
      LexLeqTotal(a[1..], b[1..]);
    }
  }

  lemma {:induction false} LexLeqTrans(a: string, b: string, c: string)
    requires LexLeq(a, b) && LexLeq(b, c)
    ensures LexLeq(a, c)
    decreases |a|
  {
    if a != [] {
      assert b != [] && c != [];
      if a[0] == b[0] && b[0] == c[0] {
        LexLeqTrans(a[1..], b[1..], c[1..]);
      } else {
        assert a[0] < c[0];
      }
    }
  }

  lemma {:induction false} LexLeqRefl(a: string)
    ensures LexLeq(a, a)
    decreases |a|
  {
    if a != [] { LexLeqRefl(a[1..]); }
  }

  /** A common prefix does not decide the comparison. */
  lemma {:induction false} LexLeqCommonPrefix(p: string, x: string, y: string)
    ensures LexLeq(p + x, p + y) <==> LexLeq(x, y)
    decreases |p|
  {
    if p == [] {
      assert p + x == x && p + y == y;
    } else {
      assert (p + x) != [] && (p + y) != [] && (p + x)[0] == (p + y)[0];
      assert (p + x)[1..] == p[1..] + x;
      assert (p + y)[1..] == p[1..] + y;
      LexLeqCommonPrefix(p[1..], x, y);
    }
  }

  /** `ORDER BY batch_lot DESC LIMIT 1`. */
  function LatestLot(lots: seq<string>): (r: string)
    requires |lots| > 0
    ensures r in lots && forall x :: x in lots ==> LexLeq(x, r)
  {
    LexLeqRefl(lots[0]);
    if |lots| == 1 then
      assert forall x :: x in lots ==> x == lots[0];
      lots[0]
    else
      var m := LatestLot(lots[1..]);
      assert forall x :: x in lots ==> x == lots[0] || x in lots[1..];
      assert forall x :: x in lots[1..] ==> x in lots;
      LexLeqTotal(lots[0], m);
      if LexLeq(lots[0], m) then m
      else
        assert forall x :: x in lots[1..] ==> LexLeq(x, lots[0]) by {
          forall x | x in lots[1..] ensures LexLeq(x, lots[0]) { LexLeqTrans(x, m, lots[0]); }
        }
        lots[0]
  }

  /** `batch_lot LIKE 'BATCH-<date>-%'`, in table order. */
  function SameDayLots(lots: seq<string>, prefix: string): (r: seq<string>)
    ensures forall x :: x in r <==> x in lots && StartsWith(x, prefix)
  {
    if lots == [] then []
    else
      var init := SameDayLots(lots[..|lots| - 1], prefix);
      var last := lots[|lots| - 1];
      assert lots == lots[..|lots| - 1] + [last];
      if StartsWith(last, prefix) then init + [last] else init
  }

  /** `s.split('-')[-1]`: what follows the last dash. */
  function LastSegment(s: string): (r: string)
    ensures '-' !in r
  {
    if s == [] then []
    else if s[|s| - 1] == '-' then []
    else LastSegment(s[..|s| - 1]) + [s[|s| - 1]]
  }

  lemma {:induction false} LastSegmentAfterDash(p: string, d: string)
    requires |p| > 0 && p[|p| - 1] == '-' && '-' !in d
    ensures LastSegment(p + d) == d
    decreases |d|
  {
    if d == [] {
      assert p + d == p;
    } else {
      var s := p + d;
      assert s[..|s| - 1] == p + d[..|d| - 1];
      assert d[|d| - 1] in d;
      LastSegmentAfterDash(p, d[..|d| - 1]);
      assert d[..|d| - 1] + [d[|d| - 1]] == d;
    }
  }

  /** A padded number is read back by `int` after the dash. */
  lemma SuffixOfLot(prefix: string, n: nat)
    requires |prefix| > 0 && prefix[|prefix| - 1] == '-'
    ensures ParseNat(LastSegment(prefix + Pad3(n))) == Some(n)
  {
    Pad3RoundTrip(n);
    var d := Pad3(n);
    assert '-' !in d by {
      forall i | 0 <= i < |d| ensures d[i] != '-' { assert IsDigit(d[i]); }
    }
    LastSegmentAfterDash(prefix, d);
  }

  /** `generate_batch_lot` as written: one more than the number after the
      last dash of the greatest same-day lot, or 1; `int` failing on that
      suffix fails the request. */
  function NextBatchLot(today: string, lots: seq<string>): Option<string>
  {
    var prefix := LotPrefix(today);
    var same := SameDayLots(lots, prefix);
    if same == [] then Some(prefix + Pad3(1))
    else
      match ParseNat(LastSegment(LatestLot(same)))
      case None => None
      case Some(n) => Some(prefix + Pad3(n + 1))
  }

  /** The generated lot has today's prefix and its suffix reads back as
      one past the latest lot's, or as 1 on the day's first batch. */
  lemma NextBatchLotShape(today: string, lots: seq<string>)
    ensures var r := NextBatchLot(today, lots);
      var same := SameDayLots(lots, LotPrefix(today));
      r.Some? ==> (StartsWith(r.value, LotPrefix(today))
        && ParseNat(LastSegment(r.value)) == Some(
             if same == [] then 1 else ParseNat(LastSegment(LatestLot(same))).value + 1))
  {
    var prefix := LotPrefix(today);
    var same := SameDayLots(lots, prefix);
    var r := NextBatchLot(today, lots);
    if r.Some? {
      var n: nat := if same == [] then 0 else ParseNat(LastSegment(LatestLot(same))).value;
      assert r.value == prefix + Pad3(n + 1);
      assert (prefix + Pad3(n + 1))[..|prefix|] == prefix;
      SuffixOfLot(prefix, n + 1);
    }
  }

  /** `NatToString(999)` is "999" and `NatToString(1000)` starts with '1'. */
  lemma ThreeAndFourDigits()
    ensures Pad3(999) == "999"
    ensures Pad3(1000)[0] == '1'
  {
    assert NatToString(9) == "9";
    assert NatToString(99) == NatToString(9) + "9";
    assert NatToString(999) == NatToString(99) + "9";
    assert NatToString(1) == "1";
    assert NatToString(10) == NatToString(1) + "0";
    assert NatToString(100) == NatToString(10) + "0";
    assert NatToString(1000) == NatToString(100) + "0";
  }

  /** Once lots 999 and 1000 of a day exist, the greatest lot in string
      order is 999 and the generator proposes 1000 again, which is taken. */
  lemma BatchLotRepeatsAfter999(today: string)
    ensures var prefix := LotPrefix(today);
      var lots := [prefix + Pad3(999), prefix + Pad3(1000)];
      NextBatchLot(today, lots) == Some(prefix + Pad3(1000)) && prefix + Pad3(1000) in lots
  {
    var prefix := LotPrefix(today);
    var a := prefix + Pad3(999);
    var b := prefix + Pad3(1000);
    assert a[..|prefix|] == prefix && b[..|prefix|] == prefix;
    SameDayPair(prefix, a, b);
    NineHundredNinetyNineLatest(prefix);
    LatestOfPair(a, b);
    SuffixOfLot(prefix, 999);
  }

  lemma SameDayPair(prefix: string, a: string, b: string)
    requires StartsWith(a, prefix) && StartsWith(b, prefix)
    ensures SameDayLots([a, b], prefix) == [a, b]
  {
    assert [a, b][..1] == [a];
    assert [a][..0] == [];
    assert SameDayLots([a], prefix) == [a];
    assert SameDayLots([a, b], prefix) == SameDayLots([a], prefix) + [b];
  }

  /** Character-wise, lot 999 of a day sorts after lot 1000. */
  lemma NineHundredNinetyNineLatest(prefix: string)
    ensures !LexLeq(prefix + Pad3(999), prefix + Pad3(1000))
  {
    ThreeAndFourDigits();
    assert !LexLeq(Pad3(999), Pad3(1000));
    LexLeqCommonPrefix(prefix, Pad3(999), Pad3(1000));
  }

  lemma LatestOfPair(a: string, b: string)
    requires !LexLeq(a, b)
    ensures LatestLot([a, b]) == a
  {
    assert [a, b][1..] == [b];
  }

  /** The largest number after the last dash among the given lots that
      read as numbers, or 0. */
  function MaxSuffix(lots: seq<string>): (m: nat)
    ensures forall x :: x in lots && ParseNat(LastSegment(x)).Some? ==> ParseNat(LastSegment(x)).value <= m
  {
    if lots == [] then 0
    else
      var rest := MaxSuffix(lots[1..]);
      assert forall x :: x in lots ==> x == lots[0] || x in lots[1..];
      var here := ParseNat(LastSegment(lots[0]));
      if here.Some? && here.value > rest then here.value else rest
  }

  /** Generation by the numeric maximum of today's suffixes. */
  function NextBatchLotFixed(today: string, lots: seq<string>): string
  {
    LotPrefix(today) + Pad3(MaxSuffix(SameDayLots(lots, LotPrefix(today))) + 1)
  }

  /** The corrected generator never proposes a lot that already exists,
      and numbers the day's first batch 001. */
  lemma NextBatchLotFixedFresh(today: string, lots: seq<string>)
    ensures NextBatchLotFixed(today, lots) !in lots
    ensures StartsWith(NextBatchLotFixed(today, lots), LotPrefix(today))
    ensures SameDayLots(lots, LotPrefix(today)) == [] ==> NextBatchLotFixed(today, lots) == LotPrefix(today) + "001"
  {
    var prefix := LotPrefix(today);
    var same := SameDayLots(lots, prefix);
    var m := MaxSuffix(same);
    var r := NextBatchLotFixed(today, lots);
    assert r == prefix + Pad3(m + 1);
    assert r[..|prefix|] == prefix;
    assert StartsWith(r, prefix);
    SuffixOfLot(prefix, m + 1);
    assert r in lots ==> r in same;
    assert r !in same;
    if same == [] {
      assert m == 0;
      FirstPad();
    }
  }

  lemma FirstPad()
    ensures Pad3(1) == "001"
  {
    assert NatToString(1) == "1";
    assert Zeros(2) == "00" by { assert Zeros(1) == "0"; }
  }

  // ---------------------------------------------------------------------
  // Traceability
  // ---------------------------------------------------------------------

  /** The columns of the incoming row a trace reports. */
  datatype IncomingSummary = IncomingSummary(
    powder: string, lot: string, inspectionType: InspectionType, inspector: string, finalResult: Option<Verdict>)

  function Summary(results: map<LotKey, ResultRow>, k: LotKey): IncomingSummary
    requires k in results
  {
    IncomingSummary(k.powder, k.lot, results[k].inspectionType, results[k].inspector, results[k].finalResult)
  }

  /** The incoming record attached to one input, or none. */
  function IncomingOf(results: map<LotKey, ResultRow>, order: seq<LotKey>, lot: string): Option<IncomingSummary>
  {
    match FirstIncoming(results, order, lot)
    case None => None
    case Some(k) => Some(Summary(results, k))
  }

  datatype TracedInput = TracedInput(input: MaterialInput, incoming: Option<IncomingSummary>)

  /** `WHERE batch_lot = ?`, first match. */
  function WorkByBatchLot(works: seq<BlendingWork>, lot: string): (r: Option<BlendingWork>)
    ensures r.None? <==> forall w :: w in works ==> w.batchLot != lot
    ensures r.Some? ==> r.value in works && r.value.batchLot == lot
  {
    if works == [] then None
    else if works[0].batchLot == lot then Some(works[0])
    else
      var r := WorkByBatchLot(works[1..], lot);
      assert forall w :: w in works ==> w == works[0] || w in works[1..];
      r
  }

  /** `trace_by_batch_lot`: the work, then each of its inputs in id order
      with the incoming record of its lot. */
  function BackwardTrace(results: map<LotKey, ResultRow>, order: seq<LotKey>, works: seq<BlendingWork>,
                         inputs: seq<MaterialInput>, batchLot: string): Option<(BlendingWork, seq<TracedInput>)>
  {
    match WorkByBatchLot(works, batchLot)
    case None => None
    case Some(w) =>
      var mine := WorkInputs(inputs, w.id);
      Some((w, seq(|mine|, i requires 0 <= i < |mine| =>
        TracedInput(mine[i], IncomingOf(results, order, mine[i].materialLot)))))
  }

  /** A usage of a material lot: the input joined with its work. */
  datatype Usage = Usage(input: MaterialInput, work: BlendingWork)

  /** Inputs of the lot whose work exists (the inner join). */
  function Usages(works: seq<BlendingWork>, inputs: seq<MaterialInput>, lot: string): (r: seq<Usage>)
    ensures forall u :: u in r ==> (u.input in inputs && u.input.materialLot == lot
      && WorkWithId(works, u.input.workId) == Some(u.work))
    ensures forall x :: x in inputs && x.materialLot == lot && WorkWithId(works, x.workId).Some? ==>
      Usage(x, WorkWithId(works, x.workId).value) in r
  {
    if inputs == [] then []
    else
      var init := Usages(works, inputs[..|inputs| - 1], lot);
      var x := inputs[|inputs| - 1];
      assert inputs == inputs[..|inputs| - 1] + [x];
      match WorkWithId(works, x.workId)
      case Some(w) => if x.materialLot == lot then init + [Usage(x, w)] else init
      case None => init
  }

  /** `trace_by_material_lot`: the incoming record, then every use of the
      lot. */
  function ForwardTrace(results: map<LotKey, ResultRow>, order: seq<LotKey>, works: seq<BlendingWork>,
                        inputs: seq<MaterialInput>, lot: string): Option<(IncomingSummary, seq<Usage>)>
  {
    match IncomingOf(results, order, lot)
    case None => None
    case Some(s) => Some((s, Usages(works, inputs, lot)))
  }

  /** `search_traceability`: which kinds of lot the text names. */
  datatype LotKind = AsBatchLot | AsMaterialLot

  function SearchLot(results: map<LotKey, ResultRow>, order: seq<LotKey>, works: seq<BlendingWork>, lot: string)
    : Option<seq<LotKind>>
  {
    if lot == [] then None
    else
      var found := (if WorkByBatchLot(works, lot).Some? then [AsBatchLot] else [])
        + (if FirstIncoming(results, order, lot).Some? then [AsMaterialLot] else []);
      if found == [] then None else Some(found)
  }

  /** The search reports a kind exactly when the matching trace succeeds. */
  lemma SearchAgreesWithTraces(results: map<LotKey, ResultRow>, order: seq<LotKey>, works: seq<BlendingWork>,
                               inputs: seq<MaterialInput>, lot: string)
    ensures var s := SearchLot(results, order, works, lot);
      (s.Some? <==> lot != [] && (BackwardTrace(results, order, works, inputs, lot).Some?
                                  || ForwardTrace(results, order, works, inputs, lot).Some?))
      && (s.Some? ==> ((AsBatchLot in s.value <==> BackwardTrace(results, order, works, inputs, lot).Some?)
                   && (AsMaterialLot in s.value <==> ForwardTrace(results, order, works, inputs, lot).Some?)))
  {
  }

  /** Work ids follow insertion order, and work orders and batch lots are
      unique (the two `UNIQUE` columns). */
  predicate WorksNumbered(works: seq<BlendingWork>)
  {
    (forall i :: 0 <= i < |works| ==> works[i].id == i + 1)
    && (forall i, j :: 0 <= i < j < |works| ==>
          works[i].workOrder != works[j].workOrder && works[i].batchLot != works[j].batchLot)
  }

  /** Forward and backward traces agree: a use of a lot found going forward
      shows up, with the same incoming record, when its batch is traced
      backward. */
  lemma TraceRoundTrip(results: map<LotKey, ResultRow>, order: seq<LotKey>, works: seq<BlendingWork>,
                       inputs: seq<MaterialInput>, lot: string, u: Usage)
    requires WorksNumbered(works)
    requires ForwardTrace(results, order, works, inputs, lot).Some?
    requires u in ForwardTrace(results, order, works, inputs, lot).value.1
    ensures var b := BackwardTrace(results, order, works, inputs, u.work.batchLot);
      b.Some? && b.value.0 == u.work
      && TracedInput(u.input, Some(ForwardTrace(results, order, works, inputs, lot).value.0)) in b.value.1
  {
    var w := u.work;
    assert w == works[u.input.workId - 1];
    var found := WorkByBatchLot(works, w.batchLot);
    assert found.Some?;
    var k :| 0 <= k < |works| && works[k] == found.value;
    assert k == u.input.workId - 1;
    var mine := WorkInputs(inputs, w.id);
    assert u.input in mine;
    var i :| 0 <= i < |mine| && mine[i] == u.input;
    var b := BackwardTrace(results, order, works, inputs, w.batchLot);
    assert b.value.1[i] == TracedInput(u.input, IncomingOf(results, order, lot));
  }

  // ---------------------------------------------------------------------
  // The store
  // ---------------------------------------------------------------------

  /** Every stored total is the sum of its work's inputs. */
  ghost predicate TotalsKept(works: seq<BlendingWork>, inputs: seq<MaterialInput>)
  {
    forall i :: 0 <= i < |works| && works[i].actualTotal.Some? ==>
      works[i].actualTotal.value == WorkTotal(inputs, works[i].id)
  }

  predicate InputsNumbered(inputs: seq<MaterialInput>)
  {
    forall i :: 0 <= i < |inputs| ==> inputs[i].id == i + 1
  }

  /** The works once an input of `workId` is on record: that work's stored
      total is refreshed from its inputs, every other work is untouched. */
  function RefreshTotal(works: seq<BlendingWork>, inputs: seq<MaterialInput>, workId: int): (r: seq<BlendingWork>)
    ensures |r| == |works|
    ensures forall i :: 0 <= i < |works| && i != workId - 1 ==> r[i] == works[i]
  {
    if 1 <= workId <= |works|
    then works[workId - 1 := works[workId - 1].(actualTotal := Some(WorkTotal(inputs, workId)))]
    else works
  }

  /** Recording one more input, numbered next, and refreshing its work's
      total keeps numbering, uniqueness and every stored total. */
  lemma RecordKeepsStore(works: seq<BlendingWork>, inputs: seq<MaterialInput>, x: MaterialInput)
    requires WorksNumbered(works) && InputsNumbered(inputs) && TotalsKept(works, inputs)
    requires x.id == |inputs| + 1
    ensures InputsNumbered(inputs + [x])
    ensures WorksNumbered(RefreshTotal(works, inputs + [x], x.workId))
    ensures TotalsKept(RefreshTotal(works, inputs + [x], x.workId), inputs + [x])
  {
    var after := inputs + [x];
    var r := RefreshTotal(works, after, x.workId);
    forall i | 0 <= i < |r| && r[i].actualTotal.Some?
      ensures r[i].actualTotal.value == WorkTotal(after, r[i].id)
    {
      TotalAfterInput(inputs, x, r[i].id);
    }
  }

  datatype InputOutcome =
    | LotNotInspected
    | WrongPowder(actualPowder: string)
    | Recorded(id: int, deviation: real, isValid: bool)

  datatype CompletionOutcome = MissingInputs(actual: nat, expected: nat) | WorkCompleted

  class BlendingStore {
    /** The inspection tables of the same database. */
    const lab: InspectionStore
    const recipes: seq<Recipe>
    var works: seq<BlendingWork>
    var inputs: seq<MaterialInput>

    ghost predicate Valid()
      reads this
    {
      WorksNumbered(works) && InputsNumbered(inputs) && TotalsKept(works, inputs)
    }

    constructor (lab: InspectionStore, recipes: seq<Recipe>)
      ensures Valid()
      ensures this.lab == lab && this.recipes == recipes && works == [] && inputs == []
    {
      this.lab := lab;
      this.recipes := recipes;
      works := [];
      inputs := [];
    }

    /** `start_blending_work`: refused when the work order or the batch
        lot is already used; otherwise a new in-progress work. */
    method StartBlendingWork(workOrder: string, product: string, batchLot: string, target: real, operator: string)
      returns (id: Option<int>)
      requires Valid()
      modifies this
      ensures Valid()
      ensures inputs == old(inputs)
      ensures if exists w :: w in old(works) && (w.workOrder == workOrder || w.batchLot == batchLot)
        then id == None && works == old(works)
        else (id == Some(|old(works)| + 1)
          && works == old(works) + [BlendingWork(|old(works)| + 1, workOrder, product, batchLot, target, None, operator, InProgress)])
    {
      if exists w :: w in works && (w.workOrder == workOrder || w.batchLot == batchLot) {
        return None;
      }
      var w := BlendingWork(|works| + 1, workOrder, product, batchLot, target, None, operator, InProgress);
      assert forall i :: 0 <= i < |works| ==> works[i] in works;
      works := works + [w];
      id := Some(w.id);
    }

    /** `save_material_input`: the lot must have an incoming record of the
        same powder; then the row goes in whatever its deviation, and the
        work's total becomes the sum of its inputs. */
    method SaveMaterialInput(workId: int, powder: string, lot: string, target: real, actual: real,
                             tolerance: Option<real>) returns (out: InputOutcome)
      requires Valid()
      modifies this
      ensures Valid()
      ensures var gate := CheckMaterial(lab.results, lab.resultOrder, lot, powder);
        if gate.UnknownLot? then out == LotNotInspected && works == old(works) && inputs == old(inputs)
        else if gate.WrongMaterial? then
          out == WrongPowder(gate.actualPowder) && works == old(works) && inputs == old(inputs)
        else
          var x := NewInput(|old(inputs)| + 1, workId, powder, lot, target, actual, tolerance);
          out == Recorded(x.id, x.deviation, x.isValid)
          && inputs == old(inputs) + [x]
          && works == RefreshTotal(old(works), inputs, workId)
    {
      var gate := CheckMaterial(lab.results, lab.resultOrder, lot, powder);
      if gate.UnknownLot? {
        return LotNotInspected;
      }
      if gate.WrongMaterial? {
        return WrongPowder(gate.actualPowder);
      }
      var dev := Deviation(target, actual);
      var tol := if tolerance.Some? then tolerance.value else DefaultTolerance;
      var x := MaterialInput(|inputs| + 1, workId, powder, lot, target, actual, dev, Abs(dev) <= tol);
      RecordKeepsStore(works, inputs, x);
      inputs := inputs + [x];
      works := RefreshTotal(works, inputs, workId);
      out := Recorded(x.id, dev, x.isValid);
    }

    /** `complete_blending_work`: refused while fewer inputs than active
        recipe lines are recorded; otherwise the work is completed. */
    method CompleteBlendingWork(workId: int) returns (out: CompletionOutcome)
      requires Valid()
      modifies this
      ensures Valid()
      ensures inputs == old(inputs)
      ensures var expected := ExpectedInputs(recipes, old(works), workId);
        var actual := |WorkInputs(inputs, workId)|;
        if actual < expected then out == MissingInputs(actual, expected) && works == old(works)
        else (out == WorkCompleted
          && works == (if 1 <= workId <= |old(works)|
                       then old(works)[workId - 1 := old(works)[workId - 1].(status := Completed)]
                       else old(works)))
    {
      var expected := ExpectedInputs(recipes, works, workId);
      var actual := |WorkInputs(inputs, workId)|;
      if actual < expected {
        return MissingInputs(actual, expected);
      }
      if 1 <= workId <= |works| {
        works := works[workId - 1 := works[workId - 1].(status := Completed)];
      }
      out := WorkCompleted;
    }

    /** `trace_by_batch_lot`, attaching each input's incoming record in a
        loop. */
    method TraceByBatchLot(batchLot: string) returns (r: Option<(BlendingWork, seq<TracedInput>)>)
      ensures r == BackwardTrace(lab.results, lab.resultOrder, works, inputs, batchLot)
    {
      var results, order := lab.results, lab.resultOrder;
      var work := WorkByBatchLot(works, batchLot);
      if work.None? {
        return None;
      }
      var mine := WorkInputs(inputs, work.value.id);
      var traced: seq<TracedInput> := [];
      for i := 0 to |mine|
        invariant |traced| == i
        invariant forall j :: 0 <= j < i ==>
          traced[j] == TracedInput(mine[j], IncomingOf(results, order, mine[j].materialLot))
      {
        var record := FirstIncoming(results, order, mine[i].materialLot);
        var incoming: Option<IncomingSummary> := None;
        if record.Some? {
          incoming := Some(Summary(results, record.value));
        }
        traced := traced + [TracedInput(mine[i], incoming)];
      }
      assert traced == seq(|mine|, i requires 0 <= i < |mine| =>
        TracedInput(mine[i], IncomingOf(results, order, mine[i].materialLot)));
      r := Some((work.value, traced));
    }
  }
}
