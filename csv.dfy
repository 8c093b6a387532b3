/** A CSV file on local disk, as written with Python's `csv.writer`: opened once
    in mode 'w' to write the header, then reopened in mode 'a' for each further row.
    Quoting and number-to-text formatting are not modelled: a row is a sequence of fields. */
module Csv {
  import opened Common

  /** A cell of a written row: text, or a number that may be NaN (None). */
  datatype Field = Text(text: string) | Num(number: Option<real>)

  type Row = seq<Field>

  function TextRow(cells: seq<string>): (r: Row)
    ensures |r| == |cells|
    ensures forall i :: 0 <= i < |cells| ==> r[i] == Text(cells[i])
  {
    seq(|cells|, i requires 0 <= i < |cells| => Text(cells[i]))
  }

  class CsvFile {
    /** The local path the rows are written to. */
    const path: string
    /** The rows in the file, in the order they were written. */
    var rows: seq<Row>

    /** `open(path, 'w')` followed by one `writerow(header)`. */
    constructor Create(path: string, header: Row)
      ensures this.path == path && rows == [header]
    {
      this.path := path;
      rows := [header];
    }

    /** `open(path, 'a')` followed by one `writerow(row)`: earlier rows are kept as they are. */
    method Append(row: Row)
      modifies this
      ensures rows == old(rows) + [row]
    {
      rows := rows + [row];
    }
  }
}
