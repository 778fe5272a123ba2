/**
 * The tabular data model. A data frame is an ordered list of column labels
 * and an ordered list of rows; a row maps column labels to cell values. A
 * cell holding NaN (a column the row's source frame did not have) is a
 * label absent from the row's map, so two rows that are NaN in the same
 * places compare equal, as `drop_duplicates` treats them.
 */
module Frames {
  import opened Sequences

  /**
   * A cell value. Text cells are the strings the program writes itself
   * (artist, track name, the empty annotations); every other value
   * (floats, integers, identifiers) is opaque and only compared for
   * equality, so it is represented by an integer code.
   */
  datatype Value = Text(text: string) | Scalar(code: int)

  type Row = map<string, Value>

  datatype Table = Table(columns: seq<string>, rows: seq<Row>)

  /** A one-row frame, such as the one built from one track's audio features. */
  datatype Record = Record(columns: seq<string>, cells: Row)

  datatype Option<T> = None | Some(value: T)

  datatype Result<T, E> = Ok(value: T) | Err(error: E)

  /** Column labels are distinct and every cell of every row sits under one of them. */
  predicate WellFormed(t: Table) {
    && NoDup(t.columns)
    && forall i, c :: 0 <= i < |t.rows| && c in t.rows[i] ==> c in t.columns
  }

  predicate RecordWellFormed(r: Record) {
    && NoDup(r.columns)
    && forall c :: c in r.cells ==> c in r.columns
  }
}
