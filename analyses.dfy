/** The parts of the business-insights and model-trainer branches that the
    two `process_data` versions share: the table as read, the HTTP error,
    the analysis records, the target encoding, the categorical encoding
    loop, the correlation scores, the plot loop, the upload summary and
    the training trace records. */
module Analyses {
  import opened Py
  import opened Frames
  import opened Ranking
  import opened Imputation
  import opened Trace

  /** A table as the CSV reader returns it. */
  type Table = f: Frame | WellFormed(f) witness []

  /** An `HTTPException(status_code, detail)` reaching the client. */
  datatype HttpError = HttpError(status: int, detail: string)

  /** `numeric_analysis` / `categorical_analysis`: each key present or not. */
  datatype Analysis = Analysis(
    correlations: Option<Scores>,
    heatmap: Option<string>,
    labelMap: Option<seq<(string, seq<string>)>>,
    plots: Option<seq<string>>,
    note: Option<string>)

  const NoAnalysis := Analysis(None, None, None, None, None)

  /** `analysis.get("correlations") or {}` */
  function CorrelationsOf(a: Analysis): Scores
  {
    if a.correlations.Some? then a.correlations.value else []
  }

  /** `model_info` */
  datatype ModelInfo =
    | NoModel
    | Regressor(r2: real, rmse: real, downloadUrl: string)
    | Classifier(accuracy: real, downloadUrl: string)

  function ModelType(m: ModelInfo): string
    requires !m.NoModel?
  {
    if m.Regressor? then "RandomForestRegressor" else "RandomForestClassifier"
  }

  // ------------------------------------------------------ target encoding

  /** The target as handed to the correlation: its raw values when its
      dtype is numeric (bool included), else `pd.factorize` codes. */
  datatype TargetSeries = RawValues(cells: seq<Cell>) | Codes(codes: seq<int>)

  function TextOptions(cells: seq<Cell>): (r: seq<Option<string>>)
    ensures |r| == |cells| && forall i :: 0 <= i < |cells| ==> r[i] == if cells[i].Text? then Some(cells[i].s) else None
  {
    seq(|cells|, i requires 0 <= i < |cells| => if cells[i].Text? then Some(cells[i].s) else None)
  }

  function TargetEncoding(c: Column): TargetSeries
  {
    if IsNumericDtype(c.kind) then RawValues(c.cells) else Codes(FactorizeCodes(TextOptions(c.cells)))
  }

  /** A text target without gaps is coded by first appearance, with codes
      0..k-1 for its k distinct values, each code used. */
  lemma TargetCodesFirstAppearance(c: Column, i: int, code: int)
    requires c.kind == Object && ColumnFits(c) && MissingCount(c.cells) == 0
    requires 0 <= i < |c.cells|
    ensures var u := Uniques(TextOptions(c.cells));
      && TargetEncoding(c) == Codes(FactorizeCodes(TextOptions(c.cells)))
      && 0 <= TargetEncoding(c).codes[i] < |u| && u[TargetEncoding(c).codes[i]] == c.cells[i].s
      && (forall j, k :: 0 <= j < k < |u| ==> FirstIndex(TextOptions(c.cells), u[j]) < FirstIndex(TextOptions(c.cells), u[k]))
      && (0 <= code < |u| ==> code in TargetEncoding(c).codes)
  {
    NoMissingCount(c.cells);
    var vals := TextOptions(c.cells);
    assert c.cells[i].Text?;
    assert vals[i] == Some(c.cells[i].s);
    assert TargetEncoding(c) == Codes(FactorizeCodes(vals));
    FactorizeCorrect(vals);
    if 0 <= code < |Uniques(vals)| {
      FactorizeCodesCover(vals, code);
    }
  }

  // ------------------------------------------------------ categorical codes

  /** `df[col].astype(str)` for an object or bool column. */
  function ColumnTexts(c: Column): (r: seq<string>)
    requires c.kind != Numeric && ColumnFits(c)
    ensures |r| == |c.cells|
  {
    seq(|c.cells|, i requires 0 <= i < |c.cells| => AsText(c.cells[i]))
  }

  function Somes(xs: seq<string>): (r: seq<Option<string>>)
    ensures |r| == |xs| && forall i :: 0 <= i < |xs| ==> r[i] == Some(xs[i])
  {
    seq(|xs|, i requires 0 <= i < |xs| => Some(xs[i]))
  }

  /** One encoded column: its codes and its `le_map` entry. */
  datatype Encoded = Encoded(name: string, codes: seq<int>, classes: seq<string>)

  /** One iteration of the encoding loop: `LabelEncoder`, or
      `pd.factorize` when the encoder raised. */
  function EncodeColumn(c: Column, encoderFails: bool): Encoded
    requires c.kind != Numeric && ColumnFits(c)
  {
    var texts := ColumnTexts(c);
    if encoderFails then Encoded(c.name, FactorizeCodes(Somes(texts)), Uniques(Somes(texts)))
    else Encoded(c.name, LabelCodes(texts), SortedDistinct(texts))
  }

  /** The encoder's classes are sorted and each cell's code is its index
      among them; the fallback's classes come in order of first appearance
      and each cell's code points back at it. Either way every cell has a
      code in range. */
  lemma EncodedColumnCorrect(c: Column, encoderFails: bool, i: int)
    requires c.kind != Numeric && ColumnFits(c) && 0 <= i < |c.cells|
    ensures var e := EncodeColumn(c, encoderFails); var texts := ColumnTexts(c);
      && e.name == c.name && |e.codes| == |c.cells|
      && 0 <= e.codes[i] < |e.classes| && e.classes[e.codes[i]] == texts[i]
      && (forall y :: y in e.classes <==> y in texts)
      && (!encoderFails ==> StrictlySorted(e.classes))
      && (encoderFails ==> forall j, k :: 0 <= j < k < |e.classes| ==>
            FirstIndex(Somes(texts), e.classes[j]) < FirstIndex(Somes(texts), e.classes[k]))
  {
    if encoderFails {
      FactorizedColumn(c, i);
    } else {
      LabelEncoderCorrect(ColumnTexts(c));
    }
  }

  lemma FactorizedColumn(c: Column, i: int)
    requires c.kind != Numeric && ColumnFits(c) && 0 <= i < |c.cells|
    ensures var e := EncodeColumn(c, true); var texts := ColumnTexts(c);
      && |e.codes| == |c.cells|
      && 0 <= e.codes[i] < |e.classes| && e.classes[e.codes[i]] == texts[i]
      && (forall y :: y in e.classes <==> y in texts)
      && (forall j, k :: 0 <= j < k < |e.classes| ==>
            FirstIndex(Somes(texts), e.classes[j]) < FirstIndex(Somes(texts), e.classes[k]))
  {
    var texts := ColumnTexts(c);
    FactorizeCorrect(Somes(texts));
    SomesMembers(texts);
  }

  lemma SomesMembers(xs: seq<string>)
    ensures forall y :: Some(y) in Somes(xs) <==> y in xs
  {
    forall y ensures Some(y) in Somes(xs) <==> y in xs {
      if y in xs {
        var k :| 0 <= k < |xs| && xs[k] == y;
        assert Somes(xs)[k] == Some(y);
      }
    }
  }

  /** The encoding of every categorical column, in column order. */
  function EncodeAll(df: Frame, encoderFails: string -> bool): (r: seq<Encoded>)
    requires ColumnsFit(df)
  {
    if df == [] then []
    else
      var c := df[|df| - 1];
      EncodeAll(df[..|df| - 1], encoderFails) + (if c.kind != Numeric then [EncodeColumn(c, encoderFails(c.name))] else [])
  }

  /** The loop covers exactly the categorical columns, in order. */
  lemma {:induction false} EncodeAllNames(df: Frame, encoderFails: string -> bool)
    requires ColumnsFit(df)
    ensures var r := EncodeAll(df, encoderFails);
      |r| == |CategoricalCols(df)| && forall k :: 0 <= k < |r| ==> r[k].name == CategoricalCols(df)[k]
  {
    if df != [] {
      EncodeAllNames(df[..|df| - 1], encoderFails);
    }
  }

  /** `for col in categorical_cols: try: LabelEncoder ... except: factorize` */
  method EncodeCategoricals(df: Frame, encoderFails: string -> bool) returns (encoded: seq<Encoded>)
    requires ColumnsFit(df)
    ensures encoded == EncodeAll(df, encoderFails)
  {
    encoded := [];
    for i := 0 to |df|
      invariant encoded == EncodeAll(df[..i], encoderFails)
    {
      assert df[..i + 1][..i] == df[..i];
      if df[i].kind != Numeric {
        encoded := encoded + [EncodeColumn(df[i], encoderFails(df[i].name))];
      }
    }
    assert df[..|df|] == df;
  }

  /** `le_map` */
  function LabelMap(encoded: seq<Encoded>): seq<(string, seq<string>)>
  {
    seq(|encoded|, k requires 0 <= k < |encoded| => (encoded[k].name, encoded[k].classes))
  }

  /** What `le_map` promises about one column's classes: exactly its
      distinct texts, sorted when the encoder ran, in order of first
      appearance when it fell back to `pd.factorize`. */
  ghost predicate ClassesOf(classes: seq<string>, c: Column, encoderFails: bool)
    requires c.kind != Numeric && ColumnFits(c)
  {
    && (forall y :: y in classes <==> y in ColumnTexts(c))
    && (!encoderFails ==> StrictlySorted(classes))
    && (encoderFails ==> forall j, k :: 0 <= j < k < |classes| ==>
          FirstIndex(Somes(ColumnTexts(c)), classes[j]) < FirstIndex(Somes(ColumnTexts(c)), classes[k]))
  }

  lemma ColumnClasses(c: Column, encoderFails: bool)
    requires c.kind != Numeric && ColumnFits(c)
    ensures ClassesOf(EncodeColumn(c, encoderFails).classes, c, encoderFails)
  {
    var texts := ColumnTexts(c);
    if encoderFails {
      FactorizeCorrect(Somes(texts));
      SomesMembers(texts);
    } else {
      LabelEncoderCorrect(texts);
    }
  }

  /** `e` is the encoding of some categorical column of `df`. */
  ghost predicate EncodesColumnOf(e: Encoded, df: Frame, encoderFails: string -> bool)
    requires ColumnsFit(df)
  {
    exists i :: 0 <= i < |df| && df[i].kind != Numeric && e == EncodeColumn(df[i], encoderFails(df[i].name))
  }

  /** Each encoded entry comes from a categorical column of the frame. */
  lemma {:induction false} EncodeAllFrom(df: Frame, encoderFails: string -> bool)
    requires ColumnsFit(df)
    ensures forall e :: e in EncodeAll(df, encoderFails) ==> EncodesColumnOf(e, df, encoderFails)
  {
    if df != [] {
      var init := df[..|df| - 1];
      EncodeAllFrom(init, encoderFails);
      forall e | e in EncodeAll(df, encoderFails) ensures EncodesColumnOf(e, df, encoderFails) {
        if e in EncodeAll(init, encoderFails) {
          assert EncodesColumnOf(e, init, encoderFails);
          var i :| 0 <= i < |init| && init[i].kind != Numeric && e == EncodeColumn(init[i], encoderFails(init[i].name));
          assert df[i] == init[i];
        } else {
          assert df[|df| - 1].kind != Numeric;
        }
      }
    }
  }

  /** `le_map` has one entry per categorical column, in column order, and
      each entry's classes are that column's distinct texts, sorted by the
      encoder or in order of first appearance by the fallback. */
  lemma LabelMapCorrect(df: Frame, encoderFails: string -> bool)
    requires ColumnsFit(df)
    ensures var m := LabelMap(EncodeAll(df, encoderFails));
      && |m| == |CategoricalCols(df)|
      && (forall k :: 0 <= k < |m| ==> m[k].0 == CategoricalCols(df)[k])
      && forall k :: 0 <= k < |m| ==>
           exists i :: 0 <= i < |df| && df[i].kind != Numeric && df[i].name == m[k].0 && ClassesOf(m[k].1, df[i], encoderFails(df[i].name))
  {
    var r := EncodeAll(df, encoderFails);
    EncodeAllNames(df, encoderFails);
    EncodeAllFrom(df, encoderFails);
    var m := LabelMap(r);
    forall k | 0 <= k < |m|
      ensures exists i :: 0 <= i < |df| && df[i].kind != Numeric && df[i].name == m[k].0 && ClassesOf(m[k].1, df[i], encoderFails(df[i].name))
    {
      assert r[k] in r;
      var i :| 0 <= i < |df| && df[i].kind != Numeric && r[k] == EncodeColumn(df[i], encoderFails(df[i].name));
      ColumnClasses(df[i], encoderFails(df[i].name));
    }
  }

  // ------------------------------------------------------------ scores

  /** The column name `.assign` gives the encoded target. A data column of
      that name is overwritten by the target and dropped with it, so it is
      never scored. */
  const TargetSlot := "_target"

  /** `.assign(_target=...).corr()["_target"].drop("_target")
      .sort_values(key=abs, ascending=False).to_dict()` given each column's
      score. */
  function CorrelationScores(names: seq<string>, score: string -> real): Scores
  {
    SortByAbs(Remove(seq(|names|, i requires 0 <= i < |names| => (names[i], score(names[i]))), TargetSlot))
  }

  /** One score per column other than `_target`, strongest first; with no
      column of that name, one score per column. */
  lemma CorrelationScoresCorrect(names: seq<string>, score: string -> real)
    ensures var r := CorrelationScores(names, score);
      && Descending(r)
      && (forall i :: 0 <= i < |names| && names[i] != TargetSlot ==> (names[i], score(names[i])) in r)
      && (forall e :: e in r ==> e.0 in names && e.0 != TargetSlot && e.1 == score(e.0))
      && (TargetSlot !in names ==> |r| == |names|)
  {
    var raw := seq(|names|, i requires 0 <= i < |names| => (names[i], score(names[i])));
    var kept := Remove(raw, TargetSlot);
    SortKeepsKeys(kept);
    SortByAbsCorrect(kept, 0.0);
    forall i | 0 <= i < |names| && names[i] != TargetSlot
      ensures (names[i], score(names[i])) in CorrelationScores(names, score)
    {
      assert raw[i] in raw;
    }
    forall e | e in CorrelationScores(names, score) ensures e.0 in names && e.0 != TargetSlot && e.1 == score(e.0) {
      assert e in raw;
      var i :| 0 <= i < |raw| && raw[i] == e;
    }
    if TargetSlot !in names {
      assert Keys(raw) == names;
      WithoutAll(raw, [TargetSlot]);
    }
  }

  // ------------------------------------------------------------- plots

  /** The plot loop's outcome: every URL in order, or the first failure. */
  function EmitAll(hints: seq<string>, emit: string -> Result<string, string>): Result<seq<string>, string>
  {
    if hints == [] then Ok([])
    else match EmitAll(hints[..|hints| - 1], emit)
      case Err(e) => Err(e)
      case Ok(urls) =>
        match emit(hints[|hints| - 1])
        case Err(e) => Err(e)
        case Ok(u) => Ok(urls + [u])
  }

  /** `for col in ...: ... cat_plots.append(save(...))`, stopping at the
      first exception. */
  method EmitPlots(hints: seq<string>, emit: string -> Result<string, string>) returns (r: Result<seq<string>, string>)
    ensures r == EmitAll(hints, emit)
  {
    var urls: seq<string> := [];
    var i := 0;
    while i < |hints|
      invariant 0 <= i <= |hints|
      invariant EmitAll(hints[..i], emit) == Ok(urls)
    {
      assert hints[..i + 1][..i] == hints[..i];
      var u := emit(hints[i]);
      if u.Err? {
        FailureSticks(hints, emit, i + 1);
        return Err(u.error);
      }
      urls := urls + [u.value];
      i := i + 1;
    }
    assert hints[..i] == hints;
    return Ok(urls);
  }

  /** Once a prefix fails, the whole loop fails the same way. */
  lemma {:induction false} FailureSticks(hints: seq<string>, emit: string -> Result<string, string>, n: int)
    requires 0 <= n <= |hints|
    requires EmitAll(hints[..n], emit).Err?
    ensures EmitAll(hints, emit) == EmitAll(hints[..n], emit)
    decreases |hints| - n
  {
    if n < |hints| {
      assert hints[..n + 1][..n] == hints[..n];
      FailureSticks(hints, emit, n + 1);
    } else {
      assert hints[..n] == hints;
    }
  }

  /** The loop yields one URL per plot, in order, or the first failure. */
  lemma {:induction false} EmitAllCorrect(hints: seq<string>, emit: string -> Result<string, string>)
    ensures EmitAll(hints, emit).Ok? <==> forall k :: 0 <= k < |hints| ==> emit(hints[k]).Ok?
    ensures EmitAll(hints, emit).Ok? ==>
      |EmitAll(hints, emit).value| == |hints| &&
      forall k :: 0 <= k < |hints| ==> EmitAll(hints, emit).value[k] == emit(hints[k]).value
    ensures EmitAll(hints, emit).Err? ==> exists k :: (0 <= k < |hints| && emit(hints[k]).Err?
      && EmitAll(hints, emit).error == emit(hints[k]).error && forall j :: 0 <= j < k ==> emit(hints[j]).Ok?)
  {
    if hints != [] {
      var init := hints[..|hints| - 1];
      EmitAllCorrect(init, emit);
      assert forall k :: 0 <= k < |init| ==> init[k] == hints[k];
    }
  }

  /** A failing first plot fails the whole loop. */
  lemma FirstFailureFails(hints: seq<string>, emit: string -> Result<string, string>)
    requires hints != [] && emit(hints[0]).Err?
    ensures EmitAll(hints, emit).Err?
  {
    EmitAllCorrect(hints, emit);
  }

  // ------------------------------------------------------------- upload

  /** What `/upload` returns, leaving out the HTML preview: where the file
      went, its columns, its shape and each column's missing count. */
  datatype Summary = Summary(location: string, columns: seq<string>, rows: nat, cols: nat, missingCounts: seq<(string, nat)>)

  /** `df.isnull().sum().to_dict()` over every column. */
  function MissingAll(f: Frame): seq<(string, nat)>
  {
    seq(|f|, i requires 0 <= i < |f| => (f[i].name, MissingCount(f[i].cells)))
  }

  function Summarize(location: string, df: Table): Summary
  {
    Summary(location, Names(df), if df == [] then 0 else |df[0].cells|, |df|, MissingAll(df))
  }

  /** The upload summary keys its missing counts by the columns, in order,
      and its entries with a gap are exactly the per-column missing report
      that `process_data` records. */
  lemma SummaryMissingCounts(location: string, df: Table)
    ensures var s := Summarize(location, df);
      && |s.missingCounts| == |s.columns| == s.cols
      && (forall i :: 0 <= i < |s.columns| ==> s.missingCounts[i].0 == s.columns[i])
      && forall e :: e in MissingByColumn(df) <==> e in s.missingCounts && e.1 > 0
  {
    var m := MissingAll(df);
    forall e | e in MissingByColumn(df) ensures e in m {
      var k :| 0 <= k < |MissingByColumn(df)| && MissingByColumn(df)[k] == e;
      var i :| 0 <= i < |df| && df[i].name == e.0 && MissingCount(df[i].cells) == e.1;
      assert m[i] == e;
    }
    forall e | e in m && e.1 > 0 ensures e in MissingByColumn(df) {
      var i :| 0 <= i < |m| && m[i] == e;
    }
  }

  // ------------------------------------------------- shared by both routes

  /** The imputed table; imputation keeps the table well formed and its
      column names, so the target is still found. */
  function ImputedTable(frame: Table, median: seq<real> -> real): (df: Table)
    ensures Names(df) == Names(frame)
  {
    ImputeKeepsWellFormed(frame, median);
    Imputed(frame, median)
  }

  /** The first three steps as both routes run them: the missing-value
      report, the imputation loop, the report after it and the type
      split, appended to the trace one by one. */
  method OpenTrace(frame: Table, median: seq<real> -> real) returns (df: Table, steps: seq<Step>)
    ensures df == ImputedTable(frame, median)
    ensures steps == OpeningSteps(frame, median)
  {
    steps := [MissingDetectedStep(frame)];
    var imputed := ImputeMissing(frame, median);
    df := ImputedTable(frame, median);
    assert imputed == df;
    steps := steps + [MissingHandledStep(imputed)];
    steps := steps + [SeparateTypesStep(imputed)];
  }

  /** The target column of the imputed table. */
  function TargetColumn(frame: Table, target: string, median: seq<real> -> real): Column
    requires target in Names(frame)
  {
    Find(ImputedTable(frame, median), target).value
  }

  /** The trace record of a numeric side whose heatmap was stored. */
  const ComputedStep := Step("numeric_analysis", "Numeric correlations computed.", Done, NoExtra)

  /** The categorical scores, each column scored on its codes; as on the
      numeric side, a column named `_target` is overwritten and dropped. */
  function CatScores(encoded: seq<Encoded>, enc: TargetSeries, catCorr: (string, seq<int>, TargetSeries) -> real): Scores
  {
    SortByAbs(Remove(CatRaw(encoded, enc, catCorr), TargetSlot))
  }

  function CatRaw(encoded: seq<Encoded>, enc: TargetSeries, catCorr: (string, seq<int>, TargetSeries) -> real): (r: Scores)
    ensures |r| == |encoded|
  {
    seq(|encoded|, k requires 0 <= k < |encoded| => (encoded[k].name, catCorr(encoded[k].name, encoded[k].codes, enc)))
  }

  /** Every encoded column other than `_target` is scored on its own codes,
      strongest first, and nothing else is scored. */
  lemma CatScoresCorrect(encoded: seq<Encoded>, enc: TargetSeries, catCorr: (string, seq<int>, TargetSeries) -> real)
    ensures var r := CatScores(encoded, enc, catCorr);
      && Descending(r)
      && TargetSlot !in Keys(r)
      && (forall k :: 0 <= k < |encoded| && encoded[k].name != TargetSlot ==> (encoded[k].name, catCorr(encoded[k].name, encoded[k].codes, enc)) in r)
      && (forall e :: e in r ==> e in CatRaw(encoded, enc, catCorr))
  {
    var raw := CatRaw(encoded, enc, catCorr);
    var kept := Remove(raw, TargetSlot);
    SortKeepsKeys(kept);
    SortByAbsCorrect(kept, 0.0);
    var r := CatScores(encoded, enc, catCorr);
    forall k | 0 <= k < |encoded| && encoded[k].name != TargetSlot
      ensures (encoded[k].name, catCorr(encoded[k].name, encoded[k].codes, enc)) in r
    {
      assert raw[k] in raw;
    }
  }

  /** Columns that are all named `_target` give no score. */
  lemma SlotOnlyScoresNothing(encoded: seq<Encoded>, enc: TargetSeries, catCorr: (string, seq<int>, TargetSeries) -> real)
    requires forall k :: 0 <= k < |encoded| ==> encoded[k].name == TargetSlot
    ensures CatScores(encoded, enc, catCorr) == []
  {
    CatScoresCorrect(encoded, enc, catCorr);
  }

  function TrainingError(e: string): Step
  {
    Step("model_training_error", e, Error, NoExtra)
  }

  function Trained(m: ModelInfo): Step
    requires !m.NoModel?
  {
    Step("model_training", "Model trained successfully: " + ModelType(m), Done, NoExtra)
  }
}
