/** The executed (or merely prepared) statement a database data set is built from,
    seen only through what the data set reads of it: whether it has been run,
    the names of its result columns in select order, and the rows it yields,
    each a map from column name to the value in that column. */
module ResultCursor {

  /** A scalar a column can hold; the fixture table has integer and text columns. */
  datatype Value = Int(n: int) | Str(s: string)

  type Row = map<string, Value>

  datatype Cursor = Cursor(executed: bool, columns: seq<string>, rows: seq<Row>) {

    /** What a driver guarantees of every result: each row carries every listed column. */
    predicate WellFormed() {
      forall i, col :: 0 <= i < |rows| && col in columns ==> col in rows[i]
    }
  }
}
