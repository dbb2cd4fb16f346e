/**
 * An abstract pandas DataFrame: named columns of equal length, read
 * column by column (`df[name]`), extended or overwritten column by column
 * (`df[name] = values`) and turned into one record per row
 * (`df.to_dict(orient='records')`).
 */
module Frame {
  import opened Text

  /** One cell: text, an integer, or a missing value (`None` / `NaN`). */
  datatype Cell = Text(text: string) | Int(n: int) | Missing

  /** One row as a mapping from column name to cell. */
  type Record = map<string, Cell>

  /** Columns in display order, each column's cells by name, and the number of rows. */
  datatype Table = Table(columns: seq<string>, data: map<string, seq<Cell>>, height: nat)

  /** The column names are exactly the stored columns, and every column has `height` cells. */
  predicate WellFormed(t: Table)
  {
    && (forall c :: c in t.data ==> c in t.columns)
    && (forall c :: c in t.columns ==> c in t.data)
    && (forall c :: c in t.data ==> |t.data[c]| == t.height)
  }

  /** Python's `str(cell)`; a missing value prints as `nan`. */
  function CellText(cell: Cell): string
  {
    match cell
    case Text(s) => s
    case Int(n) => IntToDecimal(n)
    case Missing => "nan"
  }

  /**
   * `df[name] = values`: an existing column is overwritten where it stands,
   * a new one is added after the last column; nothing else changes.
   */
  function WithColumn(t: Table, name: string, values: seq<Cell>): (r: Table)
    requires WellFormed(t) && |values| == t.height
    ensures WellFormed(r) && r.height == t.height
    ensures r.columns == if name in t.columns then t.columns else t.columns + [name]
    ensures name in r.data && r.data[name] == values
    ensures forall c :: c in t.data && c != name ==> c in r.data && r.data[c] == t.data[c]
  {
    Table(if name in t.columns then t.columns else t.columns + [name], t.data[name := values], t.height)
  }

  /** `df.to_dict(orient='records')`: row `i` maps every column name to its `i`-th cell. */
  function Records(t: Table): (rs: seq<Record>)
    requires WellFormed(t)
    ensures |rs| == t.height
    ensures forall i :: 0 <= i < |rs| ==> rs[i].Keys == t.data.Keys
    ensures forall i, c :: 0 <= i < |rs| && c in t.data ==> rs[i][c] == t.data[c][i]
  {
    seq(t.height, i requires 0 <= i < t.height => map c | c in t.data :: t.data[c][i])
  }
}
