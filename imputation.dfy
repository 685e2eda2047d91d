/** The imputation loop that both pipelines run before anything else
    (backend/main.py and backend/repositories/upload.py): every column with
    a missing cell is filled, numbers with the column median, text with its
    first mode or, when the column has no value at all, with "Unknown". */
module Imputation {
  import opened Py
  import opened Frames

  /** The present numbers of a column, in order. */
  function PresentNumbers(cells: seq<Cell>): seq<real>
  {
    if cells == [] then []
    else PresentNumbers(cells[..|cells| - 1]) + (if cells[|cells| - 1].Num? then [cells[|cells| - 1].x] else [])
  }

  /** The present text values of a column, in order. */
  function PresentTexts(cells: seq<Cell>): seq<string>
  {
    if cells == [] then []
    else PresentTexts(cells[..|cells| - 1]) + (if cells[|cells| - 1].Text? then [cells[|cells| - 1].s] else [])
  }

  /** `col.fillna(v)` */
  function FillNa(cells: seq<Cell>, v: Cell): seq<Cell>
  {
    seq(|cells|, j requires 0 <= j < |cells| => if cells[j].NA? then v else cells[j])
  }

  /** The cell a column's gaps are filled with: the median of a numeric
      column (none when the column has no number: the median is then NaN
      and `fillna(NaN)` changes nothing), otherwise the first mode, or
      "Unknown" when computing the mode raised. */
  function FillValue(c: Column, median: seq<real> -> real): Option<Cell>
  {
    if IsNumericDtype(c.kind) then
      var xs := PresentNumbers(c.cells);
      if xs == [] then None else Some(Num(median(xs)))
    else
      match FirstMode(PresentTexts(c.cells))
      case Some(m) => Some(Text(m))
      case None => Some(Text("Unknown"))
  }

  /** One iteration of the imputation loop. */
  function ImputeColumn(c: Column, median: seq<real> -> real): Column
  {
    if MissingCount(c.cells) == 0 then c
    else match FillValue(c, median)
      case None => c
      case Some(v) => c.(cells := FillNa(c.cells, v))
  }

  /** The table after the imputation loop. */
  function Imputed(f: Frame, median: seq<real> -> real): (r: Frame)
    ensures |r| == |f|
  {
    seq(|f|, i requires 0 <= i < |f| => ImputeColumn(f[i], median))
  }

  /** `for col in df.columns: if df[col].isnull().sum() > 0: df[col] = ...` */
  method ImputeMissing(frame: Frame, median: seq<real> -> real) returns (df: Frame)
    ensures df == Imputed(frame, median)
  {
    df := frame;
    for i := 0 to |df|
      invariant |df| == |frame|
      invariant forall k :: 0 <= k < i ==> df[k] == ImputeColumn(frame[k], median)
      invariant forall k :: i <= k < |df| ==> df[k] == frame[k]
    {
      var col := df[i];
      if MissingCount(col.cells) > 0 {
        if IsNumericDtype(col.kind) {
          var xs := PresentNumbers(col.cells);
          if xs != [] {
            df := df[i := col.(cells := FillNa(col.cells, Num(median(xs))))];
          }
        } else {
          var mode := FirstMode(PresentTexts(col.cells));
          var fill := if mode.Some? then Text(mode.value) else Text("Unknown");
          df := df[i := col.(cells := FillNa(col.cells, fill))];
        }
      }
    }
  }

  // ------------------------------------------------------------ properties

  /** Filling with a present value leaves the column without a gap. */
  lemma {:induction false} FillNaLeavesNoGap(cells: seq<Cell>, v: Cell)
    requires !v.NA?
    ensures MissingCount(FillNa(cells, v)) == 0
  {
    NoMissingCount(FillNa(cells, v));
  }

  lemma {:induction false} PresentNumbersEmpty(cells: seq<Cell>)
    requires forall j :: 0 <= j < |cells| ==> cells[j].NA? || cells[j].Num?
    ensures PresentNumbers(cells) == [] <==> MissingCount(cells) == |cells|
  {
    if cells != [] {
      PresentNumbersEmpty(cells[..|cells| - 1]);
      assert MissingCount(cells[..|cells| - 1]) <= |cells| - 1 by {
        MissingAtMostLength(cells[..|cells| - 1]);
      }
    }
  }

  lemma {:induction false} MissingAtMostLength(cells: seq<Cell>)
    ensures MissingCount(cells) <= |cells|
  {
    if cells != [] {
      MissingAtMostLength(cells[..|cells| - 1]);
    }
  }

  /** Imputation never changes a present cell, a column name, a dtype or a
      column length, and leaves a column without gaps exactly as it was. */
  lemma ImputeKeepsPresentCells(f: Frame, median: seq<real> -> real, i: int, j: int)
    requires 0 <= i < |f| && 0 <= j < |f[i].cells|
    ensures var c := Imputed(f, median)[i];
      && c.name == f[i].name && c.kind == f[i].kind && |c.cells| == |f[i].cells|
      && (!f[i].cells[j].NA? ==> c.cells[j] == f[i].cells[j])
      && (MissingCount(f[i].cells) == 0 ==> c == f[i])
  {
  }

  /** A gap in a numeric column that has at least one number becomes the
      column median. */
  lemma ImputeNumericUsesMedian(f: Frame, median: seq<real> -> real, i: int, j: int)
    requires 0 <= i < |f| && 0 <= j < |f[i].cells|
    requires IsNumericDtype(f[i].kind) && f[i].cells[j].NA?
    requires PresentNumbers(f[i].cells) != []
    ensures Imputed(f, median)[i].cells[j] == Num(median(PresentNumbers(f[i].cells)))
  {
    assert MissingCount(f[i].cells) > 0 by {
      NoMissingCount(f[i].cells);
    }
  }

  /** A gap in a text column becomes the column's first mode, or "Unknown"
      when the column has no value at all. */
  lemma ImputeTextUsesModeOrUnknown(f: Frame, median: seq<real> -> real, i: int, j: int)
    requires 0 <= i < |f| && 0 <= j < |f[i].cells|
    requires !IsNumericDtype(f[i].kind) && f[i].cells[j].NA?
    ensures var vals := PresentTexts(f[i].cells);
      Imputed(f, median)[i].cells[j] == if vals == [] then Text("Unknown") else Text(FirstMode(vals).value)
  {
    assert MissingCount(f[i].cells) > 0 by {
      NoMissingCount(f[i].cells);
    }
    FirstModeIsLeastMostFrequent(PresentTexts(f[i].cells));
  }

  /** In a column whose cells fit its type the only gaps left are those
      of a numeric column that had no number at all, so the count reported
      after the loop need not be zero. */
  lemma ImputeColumnGaps(c: Column, median: seq<real> -> real)
    requires ColumnFits(c)
    ensures MissingCount(ImputeColumn(c, median).cells)
         == if c.kind == Numeric && PresentNumbers(c.cells) == [] then MissingCount(c.cells) else 0
  {
    var v := FillValue(c, median);
    if MissingCount(c.cells) == 0 {
    } else if c.kind == Numeric {
      PresentNumbersEmpty(c.cells);
      if PresentNumbers(c.cells) != [] {
        FillNaLeavesNoGap(c.cells, v.value);
      }
    } else if c.kind == Boolean {
      NoMissingCount(c.cells);
    } else {
      FillNaLeavesNoGap(c.cells, v.value);
    }
  }

  /** An all-missing numeric column keeps its gaps: imputation does not
      always reach zero missing cells. */
  lemma AllMissingNumericColumnStaysMissing(median: seq<real> -> real)
    ensures var f := [Column("x", Numeric, [NA, NA])];
      WellFormed(f) && TotalMissing(Imputed(f, median)) == 2
  {
    var f := [Column("x", Numeric, [NA, NA])];
    assert PresentNumbers([NA]) == [];
    assert [NA, NA][..1] == [NA];
    assert Imputed(f, median) == f;
  }

  /** Imputation keeps a table well-formed: fills have the column's type. */
  lemma ImputeKeepsWellFormed(f: Frame, median: seq<real> -> real)
    requires WellFormed(f)
    ensures WellFormed(Imputed(f, median))
    ensures Names(Imputed(f, median)) == Names(f)
  {
    var r := Imputed(f, median);
    forall i | 0 <= i < |r| ensures ColumnFits(r[i]) {
      if f[i].kind == Boolean {
        NoMissingCount(f[i].cells);
      }
    }
  }
}
