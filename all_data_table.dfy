/** The full data table: columns taken from the first row, the rows passing
    the five filters, a message instead of the table when none passes,
    header text derived from column names, and number formatting for budget
    columns. */
module AllDataTable {
  import opened Js
  import opened Seqs
  import opened SemuaFilter

  const NoDataMessage: string := "Tidak ada data sesuai filter yang dipilih."

  /** `data.length > 0 ? Object.keys(data[0]) : []` */
  function Columns(data: seq<Record>): (cols: seq<string>)
    ensures data == [] ==> cols == []
    ensures data != [] ==> |cols| == |data[0]| && forall i :: 0 <= i < |cols| ==> cols[i] == data[0][i].0
  {
    if |data| > 0 then Keys(data[0]) else []
  }

  /** `col.replace(/_/g, ' ')` */
  function Unscore(col: string): (r: string)
    ensures |r| == |col|
    ensures forall i :: 0 <= i < |col| ==> r[i] == if col[i] == '_' then ' ' else col[i]
  {
    seq(|col|, i requires 0 <= i < |col| => if col[i] == '_' then ' ' else col[i])
  }

  /** The header of a column: underscores become spaces, then upper case. */
  function HeaderText(col: string): (r: string)
    ensures |r| == |col|
    ensures forall i :: 0 <= i < |r| ==> r[i] != '_'
    ensures forall i :: 0 <= i < |r| ==> !('a' <= r[i] <= 'z')
    ensures forall i :: 0 <= i < |r| ==> (r[i] == ' ' <==> col[i] == '_' || col[i] == ' ')
    ensures forall i :: 0 <= i < |r| && col[i] != '_' ==> r[i] == UpperChar(col[i])
  {
    Upper(Unscore(col))
  }

  /** A header is already in header form. */
  lemma HeaderTextIdempotent(col: string)
    ensures HeaderText(HeaderText(col)) == HeaderText(col)
  {
  }

  /** A rendered cell: a whole number in the locale's grouping, the text
      "NaN", or the value as it is. */
  datatype Cell = Formatted(n: int) | NotANumber | Verbatim(v: Value)

  /** Whether a column holds a budget: its name contains 'anggaran' in any
      letter case. */
  predicate IsAnggaranColumn(col: string)
  {
    Contains(Lower(col), "anggaran")
  }

  /** `Number(v)`, which `isNaN` tests: `None` for NaN. `null` and a blank
      string are 0; other strings are taken as not numeric. */
  function ToNumber(v: Value): Option<int>
  {
    match v
    case Undefined => None
    case Null => Some(0)
    case Num(n) => Some(n)
    case Str(s) => if Trim(s) == "" then Some(0) else None
  }

  /** `parseInt(v)`, which reads the text `String(v)`: `null` gives the text
      "null" and a blank string no digits, so both are NaN (`None`). */
  function ParseInt(v: Value): Option<int>
  {
    if v.Num? then Some(v.n) else None
  }

  /** A string is a number for `isNaN` exactly when it is blank. */
  lemma ToNumberOfString(v: Value)
    ensures v.Str? ==> (ToNumber(v).Some? <==> forall i :: 0 <= i < |v.s| ==> IsSpace(v.s[i]))
  {
    if v.Str? {
      TrimBlank(v.s);
    }
  }

  /** One cell: in a budget column, a value that passes `!isNaN` goes
      through `parseInt` and is formatted, so `null` and a blank string
      show "NaN"; every other cell shows the value. */
  function CellOf(col: string, v: Value): (c: Cell)
    ensures c.Formatted? <==> IsAnggaranColumn(col) && v.Num?
    ensures c.Formatted? ==> c.n == v.n
    ensures c.NotANumber? <==>
      IsAnggaranColumn(col) && (v == Null || (v.Str? && forall i :: 0 <= i < |v.s| ==> IsSpace(v.s[i])))
    ensures c.Verbatim? ==> c.v == v
  {
    ToNumberOfString(v);
    if IsAnggaranColumn(col) && ToNumber(v).Some? then
      match ParseInt(v)
      case None => NotANumber
      case Some(n) => Formatted(n)
    else Verbatim(v)
  }

  /** The cells of one row, one per column. */
  function RowCells(cols: seq<string>, row: Record): (r: seq<Cell>)
    ensures |r| == |cols| && forall j :: 0 <= j < |cols| ==> r[j] == CellOf(cols[j], Get(row, cols[j]))
  {
    seq(|cols|, j requires 0 <= j < |cols| => CellOf(cols[j], Get(row, cols[j])))
  }

  datatype View = Message(text: string) | Table(header: seq<string>, body: seq<seq<Cell>>)

  /** The component's output. */
  function AllDataTableView(data: seq<Record>, filters: Record): (v: View)
    ensures v.Message? <==> FilterRows(data, filters) == []
    ensures v.Message? ==> v.text == NoDataMessage
    ensures v.Table? ==>
      |v.header| == |Columns(data)| &&
      (forall j :: 0 <= j < |v.header| ==> v.header[j] == HeaderText(Columns(data)[j])) &&
      |v.body| == |FilterRows(data, filters)| &&
      forall i :: 0 <= i < |v.body| ==> v.body[i] == RowCells(Columns(data), FilterRows(data, filters)[i])
  {
    var filtered := FilterRows(data, filters);
    if |filtered| == 0 then Message(NoDataMessage)
    else
      var cols := Columns(data);
      Table(MapSeq(cols, HeaderText), MapSeq(filtered, (row: Record) => RowCells(cols, row)))
  }

  /** The columns come from the first row of all the data, whether or not
      that row passes the filters. */
  lemma ColumnsIgnoreFilters(data: seq<Record>, f: Record, g: Record)
    requires AllDataTableView(data, f).Table? && AllDataTableView(data, g).Table?
    ensures AllDataTableView(data, f).header == AllDataTableView(data, g).header
  {
  }
}
