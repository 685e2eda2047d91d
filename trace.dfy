/** The `steps` trace that `process_data` returns, and the three records
    that open it in both pipelines: `missing_detected`, `missing_handled`
    and `separate_types`. */
module Trace {
  import opened Py
  import opened Frames
  import opened Imputation

  /** A step's `status`: "done" or "error". */
  datatype Status = Done | Error

  /** The keys a step carries beyond `step`, `message` and `status`. */
  datatype Extra =
    | NoExtra
    | MissingDetails(counts: seq<(string, nat)>)
    | TypeLists(numericCols: seq<string>, categoricalCols: seq<string>)

  datatype Step = Step(step: string, message: string, status: Status, extra: Extra)

  /** `missing_before[missing_before > 0].to_dict()`: the columns with a gap,
      in column order, with their counts. */
  function MissingByColumn(f: Frame): (r: seq<(string, nat)>)
    ensures forall k :: 0 <= k < |r| ==> r[k].1 > 0
    ensures forall k :: 0 <= k < |r| ==> exists i :: 0 <= i < |f| && f[i].name == r[k].0 && MissingCount(f[i].cells) == r[k].1
    ensures forall i :: 0 <= i < |f| && MissingCount(f[i].cells) > 0 ==> (f[i].name, MissingCount(f[i].cells)) in r
  {
    if f == [] then []
    else
      var c := f[|f| - 1];
      MissingByColumn(f[..|f| - 1]) + (if MissingCount(c.cells) > 0 then [(c.name, MissingCount(c.cells))] else [])
  }

  function SumCounts(counts: seq<(string, nat)>): nat
  {
    if counts == [] then 0 else SumCounts(counts[..|counts| - 1]) + counts[|counts| - 1].1
  }

  /** The total in the `missing_detected` message is the sum of its details. */
  lemma {:induction false} MissingDetailsSum(f: Frame)
    ensures SumCounts(MissingByColumn(f)) == TotalMissing(f)
  {
    if f != [] {
      MissingDetailsSum(f[..|f| - 1]);
      var c := f[|f| - 1];
      var a := MissingByColumn(f[..|f| - 1]);
      var b := if MissingCount(c.cells) > 0 then [(c.name, MissingCount(c.cells))] else [];
      SumCountsAppend(a, b);
    }
  }

  lemma {:induction false} SumCountsAppend(a: seq<(string, nat)>, b: seq<(string, nat)>)
    ensures SumCounts(a + b) == SumCounts(a) + SumCounts(b)
  {
    if b != [] {
      assert (a + b)[..|a + b| - 1] == a + b[..|b| - 1];
      SumCountsAppend(a, b[..|b| - 1]);
    } else {
      assert a + b == a;
    }
  }

  function MissingDetectedStep(f: Frame): Step
  {
    var details := MissingByColumn(f);
    Step("missing_detected",
         "Found " + NatToString(TotalMissing(f)) + " missing values across " + NatToString(|details|) + " columns.",
         Done, MissingDetails(details))
  }

  function MissingHandledStep(f: Frame): Step
  {
    Step("missing_handled", "Missing values handled. Remaining missing values: " + NatToString(TotalMissing(f)) + ".",
         Done, NoExtra)
  }

  function SeparateTypesStep(f: Frame): Step
  {
    var num := NumericCols(f);
    var cat := CategoricalCols(f);
    Step("separate_types",
         "Separated columns into " + NatToString(|num|) + " numeric and " + NatToString(|cat|) + " categorical.",
         Done, TypeLists(num, cat))
  }

  /** The three records every successful request starts with: gaps counted
      on the table as read, the remainder counted after imputation, and the
      type split of the imputed table. */
  function OpeningSteps(frame: Frame, median: seq<real> -> real): (r: seq<Step>)
    ensures |r| == 3 && r[0].step == "missing_detected" && r[1].step == "missing_handled" && r[2].step == "separate_types"
    ensures forall k :: 0 <= k < 3 ==> r[k].status == Done
  {
    var df := Imputed(frame, median);
    [MissingDetectedStep(frame), MissingHandledStep(df), SeparateTypesStep(df)]
  }

  /** The type split covers every column exactly once. */
  lemma {:induction false} TypeSplitCounts(f: Frame)
    ensures |NumericCols(f)| + |CategoricalCols(f)| == |f|
  {
    if f != [] {
      TypeSplitCounts(f[..|f| - 1]);
    }
  }

  /** The columns imputation cannot fill: numeric columns without a number. */
  function Unfillable(f: Frame): (r: Frame)
    ensures forall c :: c in r ==> c in f && c.kind == Numeric && PresentNumbers(c.cells) == []
  {
    if f == [] then []
    else
      var c := f[|f| - 1];
      Unfillable(f[..|f| - 1]) + (if c.kind == Numeric && PresentNumbers(c.cells) == [] then [c] else [])
  }

  /** `missing_handled` reports exactly the gaps of the unfillable columns,
      which is zero only when there are none with a gap. */
  lemma {:induction false} RemainingMissingIsUnfillable(f: Frame, median: seq<real> -> real)
    requires ColumnsFit(f)
    ensures TotalMissing(Imputed(f, median)) == TotalMissing(Unfillable(f))
    ensures TotalMissing(Imputed(f, median)) <= TotalMissing(f)
  {
    if f != [] {
      var n := |f| - 1;
      assert f == f[..n] + [f[n]];
      RemainingMissingIsUnfillable(f[..n], median);
      UnfillableStep(f[..n], f[n], median);
    }
    UnfillableAtMost(f);
  }

  lemma UnfillableStep(init: Frame, c: Column, median: seq<real> -> real)
    requires ColumnFits(c)
    requires TotalMissing(Imputed(init, median)) == TotalMissing(Unfillable(init))
    ensures TotalMissing(Imputed(init + [c], median)) == TotalMissing(Unfillable(init + [c]))
  {
    assert Imputed(init + [c], median) == Imputed(init, median) + [ImputeColumn(c, median)];
    ImputeColumnGaps(c, median);
    TotalMissingSnoc(Imputed(init, median), ImputeColumn(c, median));
    UnfillableSnoc(init, c);
  }

  lemma {:induction false} UnfillableAtMost(f: Frame)
    ensures TotalMissing(Unfillable(f)) <= TotalMissing(f)
  {
    if f != [] {
      var n := |f| - 1;
      assert f == f[..n] + [f[n]];
      UnfillableAtMost(f[..n]);
      UnfillableSnoc(f[..n], f[n]);
      TotalMissingSnoc(f[..n], f[n]);
    }
  }

  lemma TotalMissingSnoc(u: Frame, c: Column)
    ensures TotalMissing(u + [c]) == TotalMissing(u) + MissingCount(c.cells)
  {
    assert (u + [c])[..|u|] == u;
  }

  lemma UnfillableSnoc(u: Frame, c: Column)
    ensures TotalMissing(Unfillable(u + [c]))
         == TotalMissing(Unfillable(u)) + (if c.kind == Numeric && PresentNumbers(c.cells) == [] then MissingCount(c.cells) else 0)
  {
    assert (u + [c])[..|u|] == u;
    if c.kind == Numeric && PresentNumbers(c.cells) == [] {
      TotalMissingSnoc(Unfillable(u), c);
    } else {
      assert Unfillable(u) + [] == Unfillable(u);
    }
  }
}
