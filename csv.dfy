/** A CSV file as the `csv` module reads and writes it: a sequence of rows,
    each a sequence of fields; quoting and escaping are below this level. */
module Csv {
  import opened Optional

  type Row = seq<string>

  /** The file's rows, or `None` while no file exists at the path. */
  type CsvFile = Option<seq<Row>>
}
