/** Optional values, standing for a Python expression that either yields a
    value or raises (and is caught). */
module Options {
  datatype Option<+T> = None | Some(value: T)
}

/** The cells, rows and tables the reshaper works on. */
module Cells {

  /** One cell of a table. `Missing` stands for every marker pandas treats as
      absent (None, NaN, NaT); the other constructors are passed through as
      they are and never inspected. */
  datatype Value = Missing | Text(text: string) | Number(number: real)

  /** `pd.notna`: the cell holds a value. */
  predicate IsPresent(v: Value) {
    !v.Missing?
  }

  /** A row maps a column name to its cell. */
  type Row = map<string, Value>

  /** `row.get(column)`: the cell, or the missing marker when the row has no
      such column. */
  function Get(row: Row, column: string): Value {
    if column in row then row[column] else Missing
  }

  /** A decoded table: its column names in order and its rows in order. */
  datatype Frame = Frame(columns: seq<string>, rows: seq<Row>)

  /** What a data frame guarantees: every row has exactly the frame's
      columns. */
  predicate WellFormed(df: Frame) {
    forall j | 0 <= j < |df.rows| :: df.rows[j].Keys == set c | c in df.columns
  }
}
