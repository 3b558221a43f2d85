/**
 * A minimal model of the pandas tables the scripts work on: named columns,
 * rows of cells, reading a cell by column name, assigning a whole column
 * (`df[name] = values`) and selecting columns by a list of names
 * (`df[names]`, which raises `KeyError` for an absent name).
 */
module Frames {
  import opened Wrappers
  import opened Errors

  /**
   * A cell: an integer, a string, or a missing value (`NaN`). Booleans and
   * whole floats are written as integers: an indicator cell holding `True` or
   * `1.0`, which Python's `== 1` accepts, is `Int(1)` here.
   */
  datatype Value = Int(i: int) | Str(s: string) | Null

  datatype Frame = Frame(columns: seq<string>, rows: seq<seq<Value>>)

  /** One row of a frame together with its column names, as handed to the classifier. */
  datatype Sample = Sample(columns: seq<string>, values: seq<Value>)

  predicate Distinct<T(==)>(xs: seq<T>) {
    forall i, j :: 0 <= i < j < |xs| ==> xs[i] != xs[j]
  }

  /** Column names are unique and every row has one cell per column. */
  predicate WellFormed(f: Frame) {
    && Distinct(f.columns)
    && forall i :: 0 <= i < |f.rows| ==> |f.rows[i]| == |f.columns|
  }

  /** Position of the first occurrence of `x` in `xs`. */
  function IndexOf<T(==)>(xs: seq<T>, x: T): (k: nat)
    requires x in xs
    ensures k < |xs| && xs[k] == x
    ensures forall j :: 0 <= j < k ==> xs[j] != x
  {
    if xs[0] == x then 0 else 1 + IndexOf(xs[1..], x)
  }

  lemma IndexOfDistinct<T>(xs: seq<T>, k: nat)
    requires Distinct(xs) && k < |xs|
    ensures IndexOf(xs, xs[k]) == k
  {
  }

  /** The cell of row `i` in the column called `name`. */
  function Cell(f: Frame, i: nat, name: string): Value
    requires WellFormed(f) && i < |f.rows| && name in f.columns
  {
    f.rows[i][IndexOf(f.columns, name)]
  }

  /** `row.get(name, default)`: the cell, or `default` when the column is absent. */
  function CellOr(f: Frame, i: nat, name: string, default: Value): (v: Value)
    requires WellFormed(f) && i < |f.rows|
    ensures name !in f.columns ==> v == default
    ensures name in f.columns ==> v == Cell(f, i, name)
  {
    if name in f.columns then Cell(f, i, name) else default
  }

  /** The value of the sample's column called `name`, if it has one. */
  function SampleValue(s: Sample, name: string): Option<Value> {
    if name in s.columns && IndexOf(s.columns, name) < |s.values|
    then Some(s.values[IndexOf(s.columns, name)])
    else None
  }

  function RowSample(f: Frame, i: nat): Sample
    requires i < |f.rows|
  {
    Sample(f.columns, f.rows[i])
  }

  /**
   * `df[name] = values`: an existing column is overwritten where it stands,
   * a new one is appended after the others.
   */
  function SetColumn(f: Frame, name: string, values: seq<Value>): (r: Frame)
    requires WellFormed(f) && |values| == |f.rows|
    ensures WellFormed(r)
    ensures |r.rows| == |f.rows|
    ensures r.columns == if name in f.columns then f.columns else f.columns + [name]
    ensures forall i :: 0 <= i < |r.rows| ==> Cell(r, i, name) == values[i]
    ensures forall i, c :: 0 <= i < |r.rows| && c in f.columns && c != name ==> Cell(r, i, c) == Cell(f, i, c)
  {
    if name in f.columns then
      var k := IndexOf(f.columns, name);
      var r := Frame(f.columns, seq(|f.rows|, i requires 0 <= i < |f.rows| => f.rows[i][k := values[i]]));
      r
    else
      var cols := f.columns + [name];
      var r := Frame(cols, seq(|f.rows|, i requires 0 <= i < |f.rows| => f.rows[i] + [values[i]]));
      assert forall c :: c in f.columns ==> IndexOf(cols, c) == IndexOf(f.columns, c) by {
        forall c | c in f.columns ensures IndexOf(cols, c) == IndexOf(f.columns, c) {
          IndexOfDistinct(cols, IndexOf(f.columns, c));
        }
      }
      IndexOfDistinct(cols, |f.columns|);
      r
  }

  /** `df[name] = constant`: the constant broadcast to every row. */
  function SetConstant(f: Frame, name: string, v: Value): (r: Frame)
    requires WellFormed(f)
    ensures WellFormed(r)
    ensures |r.rows| == |f.rows|
    ensures r.columns == if name in f.columns then f.columns else f.columns + [name]
    ensures forall i :: 0 <= i < |r.rows| ==> Cell(r, i, name) == v
    ensures forall i, c :: 0 <= i < |r.rows| && c in f.columns && c != name ==> Cell(r, i, c) == Cell(f, i, c)
  {
    SetColumn(f, name, seq(|f.rows|, _ => v))
  }

  /** The first of `names` that is not a column, if any. */
  function FirstMissing(names: seq<string>, columns: seq<string>): (m: Option<string>)
    ensures m.None? <==> forall n :: n in names ==> n in columns
    ensures m.Some? ==> m.value in names && m.value !in columns
  {
    if names == [] then None
    else if names[0] !in columns then Some(names[0])
    else FirstMissing(names[1..], columns)
  }

  /** `df[names]`: the named columns, in the order given. */
  function Select(f: Frame, names: seq<string>): (r: Result<Frame, Error>)
    requires WellFormed(f)
    ensures r.Success? <==> forall n :: n in names ==> n in f.columns
    ensures r.Failure? ==> r.error.MissingColumn? && r.error.name in names && r.error.name !in f.columns
    ensures r.Success? ==> r.value.columns == names && |r.value.rows| == |f.rows|
    ensures r.Success? ==> forall i :: 0 <= i < |f.rows| ==> |r.value.rows[i]| == |names|
    ensures r.Success? ==> forall i, j :: 0 <= i < |f.rows| && 0 <= j < |names| ==> r.value.rows[i][j] == Cell(f, i, names[j])
  {
    match FirstMissing(names, f.columns)
    case Some(n) => Failure(MissingColumn(n))
    case None =>
      Success(Frame(names, seq(|f.rows|, i requires 0 <= i < |f.rows| =>
        seq(|names|, j requires 0 <= j < |names| => Cell(f, i, names[j])))))
  }
}
