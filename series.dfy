/** The values the Bitcoin dashboard's forecaster works on: one day of the
    four feature columns, a dated history record, the fitted scaler, and the
    ways a forecast can fail. Cells are reals; dates are calendar day numbers. */
module Series {

  /** Length of the window the LSTM reads (`seq_length`). */
  const SeqLength: nat := 20

  /** One row of the feature table, in the scaler's column order:
      Close (the target), then the exogenous fgi, eth_close and dxy. */
  datatype Row = Row(close: real, fgi: real, ethClose: real, dxy: real)

  /** One day of history: the table's date index as a day number, and its row. */
  datatype Record = Record(date: int, row: Row)

  /** A window of consecutive rows, oldest first. */
  type Window = seq<Row>

  /** A fitted scaler, seen one row at a time: the forward transform
      (raw to normalised) and its inverse. */
  datatype Scaler = Scaler(transform: Row -> Row, inverseTransform: Row -> Row)

  datatype Error =
    | EmptyHistory   // the table has no rows, so there is no last date (the label
                     // of this model; the foreign scaler may reject the empty
                     // matrix first)
    | ShapeMismatch  // a reshape to a fixed window length found too few rows

  datatype Result<T> = Ok(value: T) | Err(error: Error)

  /** The three exogenous cells of a row. */
  function Exogenous(r: Row): (real, real, real) {
    (r.fgi, r.ethClose, r.dxy)
  }

  /** The last `n` elements of `s`, or all of `s` when it is shorter. */
  function Tail<T>(s: seq<T>, n: nat): seq<T> {
    if |s| <= n then s else s[|s| - n..]
  }

  /** The feature rows of a stretch of history, without the dates. */
  function Rows(data: seq<Record>): seq<Row> {
    seq(|data|, i requires 0 <= i < |data| => data[i].row)
  }

  /** Applies a per-row transform to every row of a matrix. */
  function MapRows(f: Row -> Row, rows: seq<Row>): seq<Row> {
    seq(|rows|, i requires 0 <= i < |rows| => f(rows[i]))
  }

  /** Column 0 (the target column) of a matrix. */
  function Closes(rows: seq<Row>): seq<real> {
    seq(|rows|, i requires 0 <= i < |rows| => rows[i].close)
  }
}
