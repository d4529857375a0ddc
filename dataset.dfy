/**
 * The prepared dataset as the workers see it: one row per hourly timestamp,
 * with the hour of its timestamp, its day ordinal and its numeric columns.
 * A column a row does not carry reads as missing, as a NaN cell would.
 */
module Dataset {
  import opened Wrappers

  type Cols = map<string, Option<real>>

  /** A row before preparation: the hour of its timestamp and its columns. */
  datatype Stamped = Stamped(hour: int, cols: Cols)

  /** A prepared row: hour of day, day ordinal and columns. */
  datatype Row = Row(hour: int, day: int, cols: Cols)

  function Cell(cols: Cols, name: string): Option<real> {
    if name in cols then cols[name] else None
  }

  /** The values of a column selection, row by row, as `frame[names].values`. */
  type Matrix = seq<seq<Option<real>>>

  function Project(rows: seq<Row>, names: seq<string>): (m: Matrix)
    ensures |m| == |rows|
    ensures forall i :: 0 <= i < |rows| ==> |m[i]| == |names|
  {
    seq(|rows|, i requires 0 <= i < |rows| =>
      seq(|names|, j requires 0 <= j < |names| => Cell(rows[i].cols, names[j])))
  }

  /** The values of one column, row by row. */
  function ColumnValues(rows: seq<Row>, name: string): (v: seq<Option<real>>)
    ensures |v| == |rows|
    ensures forall i :: 0 <= i < |rows| ==> v[i] == Cell(rows[i].cols, name)
  {
    seq(|rows|, i requires 0 <= i < |rows| => Cell(rows[i].cols, name))
  }
}
