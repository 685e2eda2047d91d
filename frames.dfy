/** The table a request works on, as `pandas.read_csv` materialises it, and
    the discrete column operations the pipeline applies to it: missing-value
    counts, the dtype split, the first mode of a text column,
    `pd.factorize` and scikit-learn's `LabelEncoder`. */
module Frames {
  import opened Py

  /** One cell of a column. */
  datatype Cell = NA | Num(x: real) | Text(s: string) | Flag(b: bool)

  /** The dtype family of a column read from CSV: int64/float64, bool, or
      object (text). */
  datatype Kind = Numeric | Boolean | Object

  datatype Column = Column(name: string, kind: Kind, cells: seq<Cell>)

  type Frame = seq<Column>

  /** What each dtype can hold: a bool column never has a missing cell
      (pandas would have read it as object). */
  predicate CellFits(k: Kind, c: Cell)
  {
    match k
    case Numeric => c.NA? || c.Num?
    case Boolean => c.Flag?
    case Object => c.NA? || c.Text?
  }

  predicate ColumnFits(c: Column)
  {
    forall i :: 0 <= i < |c.cells| ==> CellFits(c.kind, c.cells[i])
  }

  /** Every cell has its column's type. */
  predicate ColumnsFit(df: Frame)
  {
    forall i :: 0 <= i < |df| ==> ColumnFits(df[i])
  }

  function Names(f: Frame): (r: seq<string>)
    ensures |r| == |f| && forall i :: 0 <= i < |f| ==> r[i] == f[i].name
  {
    if f == [] then [] else Names(f[..|f| - 1]) + [f[|f| - 1].name]
  }

  predicate DistinctNames(f: Frame)
  {
    forall i, j :: 0 <= i < j < |f| ==> f[i].name != f[j].name
  }

  /** A table as the CSV reader produces it: distinct column names, columns
      of one length, cells that fit their dtype. */
  predicate WellFormed(f: Frame)
  {
    && DistinctNames(f)
    && (forall i :: 0 <= i < |f| ==> ColumnFits(f[i]))
    && (forall i :: 0 <= i < |f| ==> |f[i].cells| == |f[0].cells|)
  }

  /** The column called `name`, if any. */
  function Find(f: Frame, name: string): (r: Option<Column>)
    ensures r.Some? <==> name in Names(f)
    ensures r.Some? ==> r.value in f && r.value.name == name
  {
    if f == [] then None
    else if f[|f| - 1].name == name then Some(f[|f| - 1])
    else Find(f[..|f| - 1], name)
  }

  // --------------------------------------------------------- missing cells

  /** `col.isnull().sum()` */
  function MissingCount(cells: seq<Cell>): nat
  {
    if cells == [] then 0
    else MissingCount(cells[..|cells| - 1]) + (if cells[|cells| - 1].NA? then 1 else 0)
  }

  /** `df.isnull().sum().sum()` */
  function TotalMissing(f: Frame): nat
  {
    if f == [] then 0 else TotalMissing(f[..|f| - 1]) + MissingCount(f[|f| - 1].cells)
  }

  lemma {:induction false} NoMissingCount(cells: seq<Cell>)
    ensures MissingCount(cells) == 0 <==> forall i :: 0 <= i < |cells| ==> !cells[i].NA?
  {
    if cells != [] {
      NoMissingCount(cells[..|cells| - 1]);
      assert forall i :: 0 <= i < |cells| - 1 ==> cells[..|cells| - 1][i] == cells[i];
    }
  }

  // -------------------------------------------------------------- dtypes

  /** `pd.api.types.is_numeric_dtype`: true for numbers and for bool. */
  predicate IsNumericDtype(k: Kind)
  {
    k == Numeric || k == Boolean
  }

  /** `df.select_dtypes(include=[np.number]).columns` (bool is not a number here) */
  function NumericCols(f: Frame): (r: seq<string>)
    ensures forall x :: x in r ==> exists i :: 0 <= i < |f| && f[i].name == x && f[i].kind == Numeric
    ensures forall i :: 0 <= i < |f| && f[i].kind == Numeric ==> f[i].name in r
  {
    if f == [] then []
    else NumericCols(f[..|f| - 1]) + (if f[|f| - 1].kind == Numeric then [f[|f| - 1].name] else [])
  }

  /** `df.select_dtypes(include=['object', 'category', 'bool']).columns` */
  function CategoricalCols(f: Frame): (r: seq<string>)
    ensures forall x :: x in r ==> exists i :: 0 <= i < |f| && f[i].name == x && f[i].kind != Numeric
    ensures forall i :: 0 <= i < |f| && f[i].kind != Numeric ==> f[i].name in r
  {
    if f == [] then []
    else CategoricalCols(f[..|f| - 1]) + (if f[|f| - 1].kind != Numeric then [f[|f| - 1].name] else [])
  }

  /** Every column lands in exactly one of the two lists, the target
      included. */
  lemma TypeSplitPartitions(f: Frame, name: string)
    requires DistinctNames(f)
    requires name in Names(f)
    ensures name in NumericCols(f) <==> name !in CategoricalCols(f)
  {
  }

  // --------------------------------------------------------- string order

  /** Python's string order: lexicographic by code point, a prefix first. */
  predicate StrLe(a: string, b: string)
    decreases |a|
  {
    a == [] || (b != [] && (a[0] < b[0] || (a[0] == b[0] && StrLe(a[1..], b[1..]))))
  }

  predicate StrLt(a: string, b: string)
  {
    StrLe(a, b) && a != b
  }

  lemma {:induction false} StrLeTotal(a: string, b: string)
    ensures StrLe(a, b) || StrLe(b, a)
    decreases |a|
  {
    if a != [] && b != [] && a[0] == b[0] {
      StrLeTotal(a[1..], b[1..]);
    }
  }

  lemma {:induction false} StrLeAntisymmetric(a: string, b: string)
    requires StrLe(a, b) && StrLe(b, a)
    ensures a == b
    decreases |a|
  {
    if a != [] && b != [] {
      StrLeAntisymmetric(a[1..], b[1..]);
      assert a == [a[0]] + a[1..];
      assert b == [b[0]] + b[1..];
    }
  }

  lemma {:induction false} StrLeTransitive(a: string, b: string, c: string)
    requires StrLe(a, b) && StrLe(b, c)
    ensures StrLe(a, c)
    decreases |a|
  {
    if a != [] && b != [] && c != [] && a[0] == b[0] && b[0] == c[0] {
      StrLeTransitive(a[1..], b[1..], c[1..]);
    }
  }

  // ---------------------------------------------------------------- mode

  function Occurrences(vals: seq<string>, v: string): nat
  {
    if vals == [] then 0 else (if vals[0] == v then 1 else 0) + Occurrences(vals[1..], v)
  }

  /** `a` is at least as good a first mode as `b`: more frequent, or as
      frequent and not greater in string order. */
  predicate ModeBeats(vals: seq<string>, a: string, b: string)
  {
    Occurrences(vals, a) > Occurrences(vals, b)
    || (Occurrences(vals, a) == Occurrences(vals, b) && StrLe(a, b))
  }

  function BestMode(vals: seq<string>, candidates: seq<string>): string
    requires candidates != []
  {
    if |candidates| == 1 then candidates[0]
    else
      var rest := BestMode(vals, candidates[1..]);
      if ModeBeats(vals, candidates[0], rest) then candidates[0] else rest
  }

  /** `Series(vals).mode().iloc[0]`: `mode()` lists the most frequent values
      in sorted order, and `iloc[0]` on an empty result raises (None here). */
  function FirstMode(vals: seq<string>): Option<string>
  {
    if vals == [] then None else Some(BestMode(vals, vals))
  }

  lemma {:induction false} BestModeBeatsAll(vals: seq<string>, candidates: seq<string>)
    requires candidates != []
    ensures BestMode(vals, candidates) in candidates
    ensures forall c :: c in candidates ==> ModeBeats(vals, BestMode(vals, candidates), c)
  {
    var b := BestMode(vals, candidates);
    if |candidates| == 1 {
      StrLeTotal(b, b);
    } else {
      var rest := BestMode(vals, candidates[1..]);
      BestModeBeatsAll(vals, candidates[1..]);
      if ModeBeats(vals, candidates[0], rest) {
        forall c | c in candidates ensures ModeBeats(vals, b, c) {
          if c == candidates[0] {
            StrLeTotal(c, c);
          } else {
            assert c in candidates[1..];
            if Occurrences(vals, b) == Occurrences(vals, c) {
              StrLeTransitive(b, rest, c);
            }
          }
        }
      } else {
        StrLeTotal(candidates[0], rest);
      }
    }
  }

  /** The first mode is a value of the column, no value is more frequent,
      and it is the least in string order among the equally frequent ones;
      there is none exactly when the column has no value. */
  lemma FirstModeIsLeastMostFrequent(vals: seq<string>)
    ensures FirstMode(vals).None? <==> vals == []
    ensures FirstMode(vals).Some? ==>
      var m := FirstMode(vals).value;
      && m in vals
      && (forall w :: w in vals ==> Occurrences(vals, w) <= Occurrences(vals, m))
      && (forall w :: w in vals && Occurrences(vals, w) == Occurrences(vals, m) ==> StrLe(m, w))
  {
    if vals != [] {
      BestModeBeatsAll(vals, vals);
    }
  }

  /** The first mode is unique: any value with the properties above is it. */
  lemma FirstModeUnique(vals: seq<string>, m: string)
    requires m in vals
    requires forall w :: w in vals ==> Occurrences(vals, w) <= Occurrences(vals, m)
    requires forall w :: w in vals && Occurrences(vals, w) == Occurrences(vals, m) ==> StrLe(m, w)
    ensures FirstMode(vals) == Some(m)
  {
    FirstModeIsLeastMostFrequent(vals);
    var f := FirstMode(vals).value;
    StrLeAntisymmetric(m, f);
  }

  // ----------------------------------------------------------- factorize

  function IndexOf<T(==)>(s: seq<T>, x: T): (r: int)
    ensures -1 <= r < |s|
    ensures r == -1 <==> x !in s
    ensures r >= 0 ==> s[r] == x && x !in s[..r]
  {
    if s == [] then -1
    else if s[0] == x then 0
    else var k := IndexOf(s[1..], x); if k == -1 then -1 else k + 1
  }

  /** The distinct present values, in order of first appearance
      (`pd.factorize(...)[1]`). */
  function Uniques<T(==)>(vals: seq<Option<T>>): seq<T>
  {
    if vals == [] then []
    else
      var u := Uniques(vals[..|vals| - 1]);
      var last := vals[|vals| - 1];
      if last.Some? && last.value !in u then u + [last.value] else u
  }

  /** `pd.factorize(vals)[0]`: each present value's position among the
      uniques, -1 for a missing one. */
  function FactorizeCodes<T(==)>(vals: seq<Option<T>>): seq<int>
  {
    var u := Uniques(vals);
    seq(|vals|, i requires 0 <= i < |vals| => if vals[i].None? then -1 else IndexOf(u, vals[i].value))
  }

  function FirstIndex<T(==)>(vals: seq<Option<T>>, x: T): int
  {
    IndexOf(vals, Some(x))
  }

  lemma {:induction false} UniquesMembers<T>(vals: seq<Option<T>>)
    ensures forall j, k :: 0 <= j < k < |Uniques(vals)| ==> Uniques(vals)[j] != Uniques(vals)[k]
    ensures forall x :: x in Uniques(vals) <==> Some(x) in vals
  {
    if vals != [] {
      var p := vals[..|vals| - 1];
      var last := vals[|vals| - 1];
      UniquesMembers(p);
      assert vals == p + [last];
      forall x ensures x in Uniques(vals) <==> Some(x) in vals {
        if Some(x) in vals && Some(x) !in p {
          assert Some(x) == last;
        }
      }
    }
  }

  lemma UniqueIsPresent<T>(vals: seq<Option<T>>, y: T)
    requires y in Uniques(vals)
    ensures Some(y) in vals
  {
    UniquesMembers(vals);
  }

  /** The values of `u` first appear in `vals` in the order of `u`. */
  predicate InFirstAppearanceOrder<T(==)>(vals: seq<Option<T>>, u: seq<T>)
  {
    forall j, k :: 0 <= j < k < |u| ==> 0 <= FirstIndex(vals, u[j]) < FirstIndex(vals, u[k])
  }

  lemma {:induction false} UniquesOrdered<T>(vals: seq<Option<T>>)
    ensures InFirstAppearanceOrder(vals, Uniques(vals))
  {
    if vals != [] {
      var p := vals[..|vals| - 1];
      var last := vals[|vals| - 1];
      UniquesOrdered(p);
      UniquesMembers(p);
      var u := Uniques(vals);
      var up := Uniques(p);
      assert vals == p + [last];
      forall x | Some(x) in p ensures FirstIndex(vals, x) == FirstIndex(p, x) {
        PrefixIndexOf(p, [last], Some(x));
      }
      if last.Some? && last.value !in up {
        assert Some(last.value) !in p;
        PrefixIndexOf(p, [last], last);
        assert FirstIndex(vals, last.value) == |p|;
        assert u == up + [last.value];
        forall j, k | 0 <= j < k < |u|
          ensures 0 <= FirstIndex(vals, u[j]) < FirstIndex(vals, u[k])
        {
          var y := up[j];
          assert u[j] == y && y in Uniques(p);
          UniqueIsPresent(p, y);
          assert FirstIndex(vals, y) == FirstIndex(p, y) < |p|;
          if k < |up| {
            assert u[k] == up[k] && up[k] in Uniques(p);
            UniqueIsPresent(p, up[k]);
            assert FirstIndex(vals, up[k]) == FirstIndex(p, up[k]);
            assert 0 <= FirstIndex(p, up[j]) < FirstIndex(p, up[k]);
          } else {
            assert u[k] == last.value;
          }
        }
        assert InFirstAppearanceOrder(vals, u);
      } else {
        assert u == up;
        forall j, k | 0 <= j < k < |u|
          ensures 0 <= FirstIndex(vals, u[j]) < FirstIndex(vals, u[k])
        {
          assert up[j] in Uniques(p) && up[k] in Uniques(p);
          UniqueIsPresent(p, up[j]);
          UniqueIsPresent(p, up[k]);
          assert FirstIndex(vals, up[j]) == FirstIndex(p, up[j]);
          assert FirstIndex(vals, up[k]) == FirstIndex(p, up[k]);
          assert 0 <= FirstIndex(p, up[j]) < FirstIndex(p, up[k]);
        }
        assert InFirstAppearanceOrder(vals, u);
      }
    } else {
      assert Uniques(vals) == [];
    }
  }

  lemma {:induction false} PrefixIndexOf<T>(a: seq<T>, b: seq<T>, x: T)
    ensures x in a ==> IndexOf(a + b, x) == IndexOf(a, x)
    ensures x !in a && x in b ==> IndexOf(a + b, x) == |a| + IndexOf(b, x)
  {
    if a != [] {
      assert (a + b)[1..] == a[1..] + b;
      PrefixIndexOf(a[1..], b, x);
    } else {
      assert a + b == b;
    }
  }

  /** `pd.factorize` codes: -1 exactly for missing cells, otherwise an index
      into the uniques that points back at the value; the uniques are
      distinct, are exactly the present values, and come in order of first
      appearance. */
  lemma FactorizeCorrect<T>(vals: seq<Option<T>>)
    ensures var u := Uniques(vals); var c := FactorizeCodes(vals);
      && |c| == |vals|
      && (forall i :: 0 <= i < |vals| ==> (c[i] == -1 <==> vals[i].None?))
      && (forall i :: 0 <= i < |vals| && vals[i].Some? ==> 0 <= c[i] < |u| && u[c[i]] == vals[i].value)
      && (forall j, k :: 0 <= j < k < |u| ==> u[j] != u[k])
      && (forall x :: x in u <==> Some(x) in vals)
      && (forall j, k :: 0 <= j < k < |u| ==> FirstIndex(vals, u[j]) < FirstIndex(vals, u[k]))
  {
    var u := Uniques(vals);
    var c := FactorizeCodes(vals);
    UniquesMembers(vals);
    UniquesOrdered(vals);
    forall i | 0 <= i < |vals| && vals[i].Some?
      ensures 0 <= c[i] < |u| && u[c[i]] == vals[i].value
    {
      assert vals[i] in vals;
      assert vals[i].value in u;
    }
  }

  /** With no missing cell, the codes are exactly 0..k-1 for k distinct
      values: every code is used. */
  lemma FactorizeCodesCover<T>(vals: seq<Option<T>>, code: int)
    requires forall i :: 0 <= i < |vals| ==> vals[i].Some?
    requires 0 <= code < |Uniques(vals)|
    ensures code in FactorizeCodes(vals)
  {
    var u := Uniques(vals);
    UniquesMembers(vals);
    var x := u[code];
    var i := FirstIndex(vals, x);
    assert vals[i] == Some(x);
    assert IndexOf(u, x) == code;
    assert FactorizeCodes(vals)[i] == code;
  }

  // --------------------------------------------------------- LabelEncoder

  function InsertSorted(x: string, s: seq<string>): seq<string>
  {
    if s == [] then [x]
    else if x == s[0] then s
    else if StrLe(x, s[0]) then [x] + s
    else [s[0]] + InsertSorted(x, s[1..])
  }

  /** `LabelEncoder().fit(vals).classes_`, i.e. `np.unique(vals)`. */
  function SortedDistinct(vals: seq<string>): seq<string>
  {
    if vals == [] then [] else InsertSorted(vals[0], SortedDistinct(vals[1..]))
  }

  /** `LabelEncoder().fit_transform(vals)`: each value's index among the
      classes. */
  function LabelCodes(vals: seq<string>): seq<int>
  {
    var classes := SortedDistinct(vals);
    seq(|vals|, i requires 0 <= i < |vals| => IndexOf(classes, vals[i]))
  }

  predicate StrictlySorted(s: seq<string>)
  {
    forall j, k :: 0 <= j < k < |s| ==> StrLt(s[j], s[k])
  }

  lemma {:induction false} InsertSortedProperties(x: string, s: seq<string>)
    requires StrictlySorted(s)
    ensures StrictlySorted(InsertSorted(x, s))
    ensures forall y :: y in InsertSorted(x, s) <==> y == x || y in s
  {
    if s != [] && x != s[0] && !StrLe(x, s[0]) {
      InsertSortedProperties(x, s[1..]);
      var r := InsertSorted(x, s);
      StrLeTotal(x, s[0]);
      forall j, k | 0 <= j < k < |r| ensures StrLt(r[j], r[k]) {
        if j == 0 {
          var y := r[k];
          assert y in InsertSorted(x, s[1..]);
          if y != x {
            assert y in s[1..];
            var m :| 1 <= m < |s| && s[m] == y;
          } else {
            if s[0] == y { }
          }
        }
      }
    } else if s != [] && x != s[0] {
      var r := InsertSorted(x, s);
      forall j, k | 0 <= j < k < |r| ensures StrLt(r[j], r[k]) {
        if j == 0 {
          if k > 1 {
            assert StrLt(s[0], s[k - 1]);
            StrLeTransitive(x, s[0], s[k - 1]);
            if x == s[k - 1] {
              StrLeAntisymmetric(x, s[0]);
            }
          }
        }
      }
    }
  }

  lemma {:induction false} SortedDistinctProperties(vals: seq<string>)
    ensures StrictlySorted(SortedDistinct(vals))
    ensures forall y :: y in SortedDistinct(vals) <==> y in vals
  {
    if vals != [] {
      SortedDistinctProperties(vals[1..]);
      InsertSortedProperties(vals[0], SortedDistinct(vals[1..]));
      assert vals == [vals[0]] + vals[1..];
    }
  }

  /** `LabelEncoder`: the classes are the distinct labels in increasing
      string order, and every label is encoded as its index among them. */
  lemma LabelEncoderCorrect(vals: seq<string>)
    ensures var classes := SortedDistinct(vals); var c := LabelCodes(vals);
      && StrictlySorted(classes)
      && (forall y :: y in classes <==> y in vals)
      && |c| == |vals|
      && (forall i :: 0 <= i < |vals| ==> 0 <= c[i] < |classes| && classes[c[i]] == vals[i])
  {
    SortedDistinctProperties(vals);
  }

  /** `col.astype(str)` for the columns that are encoded (object and bool);
      a missing cell reads as "nan". */
  function AsText(c: Cell): string
    requires !c.Num?
  {
    match c
    case NA => "nan"
    case Text(s) => s
    case Flag(b) => if b then "True" else "False"
  }
}
