/** Evaluation of submitted replicates: averaging of scalar readings, the
    three weight-pair derivations, and the bound check (app.py
    `save_inspection_item`, `save_apparent_density`, `save_moisture`,
    `save_ash`, `check_spec`). */
module Evaluator {
  import opened Common
  import opened Catalog

  /** Why a submission is refused; each leaves every table unchanged. */
  datatype EvalError =
    | NoValidMeasurements   // no usable replicate
    | MalformedValue        // `float()` raised on a non-blank entry
    | DivisionByZero        // a zero initial weight in a moisture or ash pair
    | MissingValues         // fewer than six entries for a weight-pair item
    | UnknownItem           // an item name with no result columns

  datatype Result<T> = Ok(value: T) | Err(error: EvalError)

  // ---------------------------------------------------------------------
  // Sums and means
  // ---------------------------------------------------------------------

  function Sum(xs: seq<real>): real
  {
    if xs == [] then 0.0 else Sum(xs[..|xs| - 1]) + xs[|xs| - 1]
  }

  function Mean(xs: seq<real>): real
    requires |xs| > 0
  {
    Sum(xs) / (|xs| as real)
  }

  lemma {:induction false} SumAppend(xs: seq<real>, ys: seq<real>)
    ensures Sum(xs + ys) == Sum(xs) + Sum(ys)
    decreases |ys|
  {
    if ys == [] {
      assert xs + ys == xs;
    } else {
      assert (xs + ys)[..|xs + ys| - 1] == xs + ys[..|ys| - 1];
      assert (xs + ys)[|xs + ys| - 1] == ys[|ys| - 1];
      SumAppend(xs, ys[..|ys| - 1]);
    }
  }

  lemma SumCons(x: real, xs: seq<real>)
    ensures Sum([x] + xs) == x + Sum(xs)
  {
    SumAppend([x], xs);
    assert Sum([x]) == Sum([]) + x;
  }

  /** The sum of a list depends only on its elements, not on their order. */
  lemma {:induction false} SumPermutation(xs: seq<real>, ys: seq<real>)
    requires multiset(xs) == multiset(ys)
    ensures Sum(xs) == Sum(ys)
    decreases |xs|
  {
    if xs != [] {
      var x := xs[0];
      assert x in multiset(ys);
      var k :| 0 <= k < |ys| && ys[k] == x;
      var rest := ys[..k] + ys[k + 1..];
      assert ys == ys[..k] + [x] + ys[k + 1..];
      assert xs == [x] + xs[1..];
      assert multiset(ys) == multiset(ys[..k]) + multiset{x} + multiset(ys[k + 1..]);
      assert multiset(rest) == multiset(ys[..k]) + multiset(ys[k + 1..]);
      assert multiset(xs) == multiset{x} + multiset(xs[1..]);
      assert multiset(xs[1..]) == multiset(xs) - multiset{x};
      assert multiset(rest) == multiset(ys) - multiset{x};
      SumPermutation(xs[1..], rest);
      SumCons(x, xs[1..]);
      SumAppend(ys[..k] + [x], ys[k + 1..]);
      SumAppend(ys[..k], [x]);
      SumAppend(ys[..k], ys[k + 1..]);
      assert Sum([x]) == Sum([]) + x;
    }
  }

  function MinOf(xs: seq<real>): real
    requires |xs| > 0
  {
    if |xs| == 1 then xs[0] else
      var m := MinOf(xs[..|xs| - 1]);
      if xs[|xs| - 1] < m then xs[|xs| - 1] else m
  }

  function MaxOf(xs: seq<real>): real
    requires |xs| > 0
  {
    if |xs| == 1 then xs[0] else
      var m := MaxOf(xs[..|xs| - 1]);
      if xs[|xs| - 1] > m then xs[|xs| - 1] else m
  }

  lemma {:induction false} SumAtLeast(xs: seq<real>)
    requires |xs| > 0
    ensures (|xs| as real) * MinOf(xs) <= Sum(xs)
  {
    if |xs| > 1 {
      var init := xs[..|xs| - 1];
      var n := |init| as real;
      var lo := MinOf(xs);
      SumAtLeast(init);
      assert lo <= MinOf(init) && lo <= xs[|xs| - 1];
      MulMonotoneLeft(lo, MinOf(init), n);
      MulSucc(n, lo);
    }
  }

  lemma {:induction false} SumAtMost(xs: seq<real>)
    requires |xs| > 0
    ensures Sum(xs) <= (|xs| as real) * MaxOf(xs)
  {
    if |xs| > 1 {
      var init := xs[..|xs| - 1];
      var n := |init| as real;
      var hi := MaxOf(xs);
      SumAtMost(init);
      assert hi >= MaxOf(init) && hi >= xs[|xs| - 1];
      MulMonotoneLeft(MaxOf(init), hi, n);
      MulSucc(n, hi);
    }
  }

  lemma MulSucc(n: real, v: real)
    ensures (n + 1.0) * v == n * v + v
  {
  }

  lemma MulMonotoneLeft(a: real, b: real, n: real)
    requires a <= b && n >= 0.0
    ensures n * a <= n * b
  {
  }

  lemma DivBetween(lo: real, s: real, hi: real, n: real)
    requires n > 0.0 && n * lo <= s <= n * hi
    ensures lo <= s / n <= hi
  {
    DivMonotone(n * lo, s, n);
    DivMonotone(s, n * hi, n);
    assert n * lo / n == lo;
    assert n * hi / n == hi;
  }

  /** The mean lies between the smallest and the largest value. */
  lemma MeanBetween(xs: seq<real>)
    requires |xs| > 0
    ensures MinOf(xs) <= Mean(xs) <= MaxOf(xs)
  {
    SumAtLeast(xs);
    SumAtMost(xs);
    DivBetween(MinOf(xs), Sum(xs), MaxOf(xs), |xs| as real);
  }

  // ---------------------------------------------------------------------
  // Scalar items (app.py:398-404)
  // ---------------------------------------------------------------------

  /** The readings that survive `[float(v) for v in values if v != '' and
      v is not None]`, in order; a malformed entry makes the whole list fail. */
  function Readings(values: seq<Raw>): Option<seq<real>>
  {
    if values == [] then Some([])
    else
      match Readings(values[..|values| - 1])
      case None => None
      case Some(xs) =>
        match values[|values| - 1]
        case Blank => Some(xs)
        case Malformed => None
        case Number(v) => Some(xs + [v])
  }

  /** The average of a scalar item: the mean of the non-blank replicates,
      rounded to two places. */
  function ScalarAverage(values: seq<Raw>): Result<real>
  {
    match Readings(values)
    case None => Err(MalformedValue)
    case Some(xs) => if xs == [] then Err(NoValidMeasurements) else Ok(Round2(Mean(xs)))
  }

  lemma {:induction false} ReadingsCount(values: seq<Raw>, x: real)
    ensures Readings(values).Some? <==> Malformed !in values
    ensures Readings(values).Some? ==> multiset(Readings(values).value)[x] == multiset(values)[Number(x)]
  {
    if values != [] {
      var init := values[..|values| - 1];
      ReadingsCount(init, x);
      assert values == init + [values[|values| - 1]];
    }
  }

  /** Reordering the replicates (blanks included) never changes the outcome:
      the average is a function of the multiset of readings. */
  lemma ScalarAverageOrderInvariant(values: seq<Raw>, permuted: seq<Raw>)
    requires multiset(values) == multiset(permuted)
    ensures ScalarAverage(values) == ScalarAverage(permuted)
  {
    ReadingsCount(values, 0.0);
    ReadingsCount(permuted, 0.0);
    assert (Malformed in values) == (Malformed in multiset(values));
    assert (Malformed in permuted) == (Malformed in multiset(permuted));
    if Readings(values).Some? {
      var xs := Readings(values).value;
      var ys := Readings(permuted).value;
      forall x ensures multiset(xs)[x] == multiset(ys)[x] {
        ReadingsCount(values, x);
        ReadingsCount(permuted, x);
      }
      assert multiset(xs) == multiset(ys);
      assert |xs| == |multiset(xs)| == |multiset(ys)| == |ys|;
      if xs != [] {
        SumPermutation(xs, ys);
      }
    }
  }

  /** A successful scalar average is within rounding distance of the range
      of the replicates actually used; blank entries take no part. */
  lemma ScalarAverageBounds(values: seq<Raw>)
    requires ScalarAverage(values).Ok?
    ensures var xs := Readings(values).value;
      |xs| > 0
      && MinOf(xs) - 0.005 < ScalarAverage(values).value <= MaxOf(xs) + 0.005
  {
    var xs := Readings(values).value;
    MeanBetween(xs);
    RoundAtClose(Mean(xs), 100.0);
  }

  /** A reported average is already rounded: re-rounding it is a no-op. */
  lemma ScalarAverageRounded(values: seq<Raw>)
    requires ScalarAverage(values).Ok?
    ensures Round2(ScalarAverage(values).value) == ScalarAverage(values).value
  {
    RoundAtIdempotent(Mean(Readings(values).value), 100.0);
  }

  // ---------------------------------------------------------------------
  // Weight-pair items (app.py:582-658)
  // ---------------------------------------------------------------------

  /** The derivation applied to one pair of weights `(first, second)`:
      density = (powder - cup) / 25, moisture = (initial - dried) / initial
      x 100, ash = ash / initial x 100. `None` is Python's ZeroDivisionError. */
  function PairValue(a: Analyte, first: real, second: real): Option<real>
    requires WeightBased(a)
  {
    if a == ApparentDensity then Some((second - first) / 25.0)
    else if first == 0.0 then None
    else if a == Moisture then Some((first - second) / first * 100.0)
    else Some(second / first * 100.0)
  }

  /** One iteration `i` of the pair loop: `Ok(None)` when the pair is
      skipped because an entry is blank, `Ok(Some(v))` for a usable pair. */
  function PairStep(a: Analyte, values: seq<Raw>, i: nat): Result<Option<real>>
    requires WeightBased(a)
  {
    if 2 * i + 1 >= |values| then Err(MissingValues)
    else
      var first := values[2 * i];
      var second := values[2 * i + 1];
      if !(Filled(first) && Filled(second)) then Ok(None)
      else if first.Malformed? || second.Malformed? then Err(MalformedValue)
      else
        match PairValue(a, first.v, second.v)
        case None => Err(DivisionByZero)
        case Some(x) => Ok(Some(x))
  }

  /** The values collected by the first `n` iterations of the pair loop;
      the first error stops the loop. */
  function PairValues(a: Analyte, values: seq<Raw>, n: nat): Result<seq<real>>
    requires WeightBased(a)
  {
    if n == 0 then Ok([])
    else
      match PairValues(a, values, n - 1)
      case Err(e) => Err(e)
      case Ok(xs) =>
        match PairStep(a, values, n - 1)
        case Err(e) => Err(e)
        case Ok(step) => if step.Some? then Ok(xs + [step.value]) else Ok(xs)
  }

  /** The loop of `save_apparent_density` / `save_moisture` / `save_ash`
      over the three pairs `values[2i], values[2i+1]`. */
  method CollectPairs(a: Analyte, values: seq<Raw>) returns (r: Result<seq<real>>)
    requires WeightBased(a)
    ensures r == PairValues(a, values, 3)
  {
    var xs: seq<real> := [];
    for i := 0 to 3
      invariant PairValues(a, values, i) == Ok(xs)
    {
      if 2 * i >= |values| || 2 * i + 1 >= |values| {
        PairErrorPersists(a, values, i, 3);
        return Err(MissingValues);
      }
      var first := values[2 * i];
      var second := values[2 * i + 1];
      if Filled(first) && Filled(second) {
        if first.Malformed? || second.Malformed? {
          PairErrorPersists(a, values, i, 3);
          return Err(MalformedValue);
        }
        var v := PairValue(a, first.v, second.v);
        if v.None? {
          PairErrorPersists(a, values, i, 3);
          return Err(DivisionByZero);
        }
        xs := xs + [v.value];
      }
    }
    r := Ok(xs);
  }

  /** Once an iteration fails, the loop's outcome is that failure. */
  lemma {:induction false} PairErrorPersists(a: Analyte, values: seq<Raw>, i: nat, n: nat)
    requires WeightBased(a) && i < n
    requires PairValues(a, values, i).Ok? && PairStep(a, values, i).Err?
    ensures PairValues(a, values, n) == Err(PairStep(a, values, i).error)
    decreases n
  {
    if n - 1 > i {
      PairErrorPersists(a, values, i, n - 1);
    }
  }

  /** The average of a weight-pair item: the mean of the derived values of
      the usable pairs, rounded to two places. */
  function WeightAverage(a: Analyte, values: seq<Raw>): Result<real>
    requires WeightBased(a)
  {
    match PairValues(a, values, 3)
    case Err(e) => Err(e)
    case Ok(xs) => if xs == [] then Err(NoValidMeasurements) else Ok(Round2(Mean(xs)))
  }

  /** A pair contributes exactly when both of its entries are non-blank. */
  lemma {:induction false} PairValuesCount(a: Analyte, values: seq<Raw>, n: nat)
    requires WeightBased(a) && n <= 3 && |values| >= 6
    requires PairValues(a, values, n).Ok?
    ensures |PairValues(a, values, n).value| ==
      |set i | 0 <= i < n && Filled(values[2 * i]) && Filled(values[2 * i + 1])|
  {
    if n > 0 {
      var before := PairValues(a, values, n - 1);
      assert before.Ok?;
      var step := PairStep(a, values, n - 1);
      assert step.Ok?;
      PairValuesCount(a, values, n - 1);
      FilledPairsStep(values, n);
      if step.value.Some? {
        assert PairValues(a, values, n).value == before.value + [step.value.value];
      } else {
        assert PairValues(a, values, n).value == before.value;
      }
    }
  }

  /** The pairs among the first `n` with both entries non-blank gain
      pair `n - 1` exactly when it is filled. */
  lemma FilledPairsStep(values: seq<Raw>, n: nat)
    requires 0 < n <= 3 && |values| >= 6
    ensures |set i | 0 <= i < n && Filled(values[2 * i]) && Filled(values[2 * i + 1])| ==
      |set i | 0 <= i < n - 1 && Filled(values[2 * i]) && Filled(values[2 * i + 1])|
      + (if Filled(values[2 * (n - 1)]) && Filled(values[2 * (n - 1) + 1]) then 1 else 0)
  {
    var prev := set i | 0 <= i < n - 1 && Filled(values[2 * i]) && Filled(values[2 * i + 1]);
    var cur := set i | 0 <= i < n && Filled(values[2 * i]) && Filled(values[2 * i + 1]);
    if Filled(values[2 * (n - 1)]) && Filled(values[2 * (n - 1) + 1]) {
      assert cur == prev + {n - 1};
      assert n - 1 !in prev;
    } else {
      assert cur == prev;
    }
  }

  /** With fewer than six entries the pair loop raises, whatever the entries. */
  lemma ShortWeightInputRejected(a: Analyte, values: seq<Raw>)
    requires WeightBased(a) && |values| < 6
    ensures WeightAverage(a, values).Err?
  {
    if PairValues(a, values, 2).Ok? {
      PairErrorPersists(a, values, 2, 3);
    }
  }

  /** A moisture or ash pair with a zero initial weight and a non-blank
      second weight makes the whole submission fail (it is not skipped). */
  lemma ZeroInitialWeightRejected(a: Analyte, values: seq<Raw>, i: nat)
    requires (a == Moisture || a == Ash) && i < 3 && |values| >= 6
    requires values[2 * i] == Number(0.0) && values[2 * i + 1].Number?
    ensures WeightAverage(a, values).Err?
  {
    if PairValues(a, values, i).Ok? {
      PairErrorPersists(a, values, i, 3);
    } else {
      ErrorStays(a, values, i, 3);
    }
  }

  lemma {:induction false} ErrorStays(a: Analyte, values: seq<Raw>, i: nat, n: nat)
    requires WeightBased(a) && i <= n && PairValues(a, values, i).Err?
    ensures PairValues(a, values, n) == PairValues(a, values, i)
    decreases n
  {
    if n > i {
      ErrorStays(a, values, i, n - 1);
    }
  }

  /** With all six weights present and usable, the average is the rounded
      mean of the three derived values; for ash the derived value is
      `ash / initial x 100` (the ash share, not the loss). */
  lemma FullAshSubmission(i1: real, w1: real, i2: real, w2: real, i3: real, w3: real)
    requires i1 != 0.0 && i2 != 0.0 && i3 != 0.0
    ensures WeightAverage(Ash, [Number(i1), Number(w1), Number(i2), Number(w2), Number(i3), Number(w3)])
      == Ok(Round2((w1 / i1 * 100.0 + w2 / i2 * 100.0 + w3 / i3 * 100.0) / 3.0))
  {
    var values := [Number(i1), Number(w1), Number(i2), Number(w2), Number(i3), Number(w3)];
    var xs := [w1 / i1 * 100.0, w2 / i2 * 100.0, w3 / i3 * 100.0];
    assert PairStep(Ash, values, 0) == Ok(Some(xs[0]));
    assert PairStep(Ash, values, 1) == Ok(Some(xs[1]));
    assert PairStep(Ash, values, 2) == Ok(Some(xs[2]));
    assert PairValues(Ash, values, 0) == Ok([]);
    assert PairValues(Ash, values, 1) == Ok([xs[0]]) by { assert [] + [xs[0]] == [xs[0]]; }
    assert PairValues(Ash, values, 2) == Ok([xs[0], xs[1]]) by { assert [xs[0]] + [xs[1]] == [xs[0], xs[1]]; }
    assert PairValues(Ash, values, 3) == Ok(xs) by { assert [xs[0], xs[1]] + [xs[2]] == xs; }
    assert Sum([xs[0]]) == xs[0] by { assert [xs[0]][..0] == []; }
    assert Sum([xs[0], xs[1]]) == xs[0] + xs[1] by { assert [xs[0], xs[1]][..1] == [xs[0]]; }
    assert xs[..2] == [xs[0], xs[1]];
    assert Sum(xs) == xs[0] + xs[1] + xs[2];
  }

  // ---------------------------------------------------------------------
  // Bound check (app.py:685-695)
  // ---------------------------------------------------------------------

  /** FAIL when a set minimum exceeds the average or a set maximum is below
      it; the bounds themselves pass (inclusive). */
  function Judge(min: Option<real>, max: Option<real>, avg: real): Verdict
  {
    if min.Some? && avg < min.value then Fail
    else if max.Some? && avg > max.value then Fail
    else Pass
  }

  /** Widening the bounds can only turn FAIL into PASS, never the reverse. */
  lemma JudgeMonotone(min: Option<real>, max: Option<real>, min': Option<real>, max': Option<real>, avg: real)
    requires min'.Some? ==> min.Some? && min'.value <= min.value
    requires max'.Some? ==> max.Some? && max.value <= max'.value
    requires Judge(min, max, avg) == Pass
    ensures Judge(min', max', avg) == Pass
  {
  }

  lemma ReadingsOne(x: real)
    ensures Readings([Number(x)]) == Some([x])
  {
    var s := [Number(x)];
    assert Readings(s[..0]) == Some([]);
    var e: seq<real> := [];
    assert e + [x] == [x];
  }

  lemma ReadingsTwo(x: real, y: real)
    ensures Readings([Number(x), Number(y)]) == Some([x, y])
  {
    var s := [Number(x), Number(y)];
    assert s[..1] == [Number(x)];
    ReadingsOne(x);
    assert [x] + [y] == [x, y];
  }

  lemma ReadingsBlankLast(values: seq<Raw>)
    ensures Readings(values + [Blank]) == Readings(values)
  {
    var s := values + [Blank];
    assert s[..|s| - 1] == values;
  }

  lemma SumTwo(x: real, y: real)
    ensures Sum([x, y]) == x + y
  {
    assert [x, y][..1] == [x];
    assert [x][..0] == [];
    assert Sum([x]) == x;
  }

  /** The scalar scenario: flow-rate bounds [25, 35] with replicates
      "30", "31", "", "" average 30.5 and pass; "40", "41" average 40.5 and fail. */
  lemma FlowRateScenario()
    ensures ScalarAverage([Number(30.0), Number(31.0), Blank, Blank]) == Ok(30.5)
    ensures Judge(Some(25.0), Some(35.0), 30.5) == Pass
    ensures ScalarAverage([Number(40.0), Number(41.0)]) == Ok(40.5)
    ensures Judge(Some(25.0), Some(35.0), 40.5) == Fail
  {
    var two := [Number(30.0), Number(31.0)];
    ReadingsTwo(30.0, 31.0);
    ReadingsBlankLast(two);
    assert two + [Blank] + [Blank] == [Number(30.0), Number(31.0), Blank, Blank];
    ReadingsBlankLast(two + [Blank]);
    SumTwo(30.0, 31.0);
    assert Mean([30.0, 31.0]) == 30.5;
    RoundAtOfGrid(3050, 100.0);
    ReadingsTwo(40.0, 41.0);
    SumTwo(40.0, 41.0);
    assert Mean([40.0, 41.0]) == 40.5;
    RoundAtOfGrid(4050, 100.0);
  }
}
