/** A pandas DataFrame as the dashboard uses it: a row count and named float
    columns, where `None` stands for NaN. The helpers give NaN its pandas
    meaning: every comparison with NaN is false, arithmetic with NaN is NaN. */
module Frames {
  import opened Wrappers

  type Column = seq<Option<real>>

  /** `a > b` on floats: false when either side is NaN. */
  predicate Gt(a: Option<real>, b: Option<real>) {
    a.Some? && b.Some? && a.value > b.value
  }

  /** `a < b` on floats: false when either side is NaN. */
  predicate Lt(a: Option<real>, b: Option<real>) {
    a.Some? && b.Some? && a.value < b.value
  }

  /** `a <= b` on floats: false when either side is NaN. */
  predicate Le(a: Option<real>, b: Option<real>) {
    a.Some? && b.Some? && a.value <= b.value
  }

  /** `a >= b` on floats: false when either side is NaN. */
  predicate Ge(a: Option<real>, b: Option<real>) {
    a.Some? && b.Some? && a.value >= b.value
  }

  /** `a != 0`: TRUE for NaN, since NaN compares unequal to everything. */
  predicate NonZero(a: Option<real>) {
    a.None? || a.value != 0.0
  }

  function Add(a: Option<real>, b: Option<real>): Option<real> {
    if a.Some? && b.Some? then Some(a.value + b.value) else None
  }

  function Sub(a: Option<real>, b: Option<real>): Option<real> {
    if a.Some? && b.Some? then Some(a.value - b.value) else None
  }

  function Mul(a: Option<real>, b: Option<real>): Option<real> {
    if a.Some? && b.Some? then Some(a.value * b.value) else None
  }

  /** `col.shift(1)`: every value moved one row down, NaN in row 0. */
  function Shift(col: Column): (r: Column)
    ensures |r| == |col|
    ensures |r| > 0 ==> r[0].None?
    ensures forall i :: 1 <= i < |r| ==> r[i] == col[i - 1]
  {
    if col == [] then [] else [None] + col[..|col| - 1]
  }

  /** `col.diff()` on a column without NaN: NaN in row 0. */
  function Diff(xs: seq<real>): (d: Column)
    ensures |d| == |xs|
    ensures |d| > 0 ==> d[0].None?
    ensures forall i :: 1 <= i < |d| ==> d[i].Some? && (d[i].value == 0.0 <==> xs[i] == xs[i - 1])
  {
    seq(|xs|, i requires 0 <= i < |xs| => if i == 0 then None else Some(xs[i] - xs[i - 1]))
  }

  /** A column with no NaN. */
  predicate AllDefined(col: Column) {
    forall i :: 0 <= i < |col| ==> col[i].Some?
  }

  /** The values of a column that has no NaN. */
  function Values(col: Column): (xs: seq<real>)
    requires AllDefined(col)
    ensures |xs| == |col|
    ensures forall i :: 0 <= i < |xs| ==> col[i] == Some(xs[i])
  {
    seq(|col|, i requires 0 <= i < |col| => col[i].value)
  }

  /** A column holding the given values and no NaN. */
  function Lift(xs: seq<real>): (col: Column)
    ensures AllDefined(col) && Values(col) == xs
  {
    seq(|xs|, i requires 0 <= i < |xs| => Some(xs[i]))
  }

  /** A DataFrame: `rows` rows and a dictionary of equally long named
      columns. Column assignment `df[name] = values` updates it in place. */
  class Frame {
    var rows: nat
    var columns: map<string, Column>

    ghost predicate Valid()
      reads this
    {
      forall name :: name in columns ==> |columns[name]| == rows
    }

    constructor (rows: nat, columns: map<string, Column>)
      requires forall name :: name in columns ==> |columns[name]| == rows
      ensures Valid() && this.rows == rows && this.columns == columns
    {
      this.rows := rows;
      this.columns := columns;
    }

    /** `df[name] = values`: adds the column, or replaces it if present. */
    method SetColumn(name: string, values: Column)
      requires Valid() && |values| == rows
      modifies this
      ensures Valid() && rows == old(rows)
      ensures columns == old(columns)[name := values]
    {
      columns := columns[name := values];
    }
  }
}
