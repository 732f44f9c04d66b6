/**
 * The data the scripts move around: pandas DataFrames as values, the Python
 * values a generated snippet can leave in its namespace, and the file system
 * and pandas readers the loaders call.
 */
module Tables {
  import opened Common

  /**
   * One cell of a sheet: missing (pandas' NaN or None), a number, a text, or
   * a date, time or timestamp (the `id` tells such values apart).
   */
  datatype Cell = Null | Number(value: real) | Label(text: string) | Temporal(id: nat)

  type Row = seq<Cell>

  /**
   * `json.dumps` can write every cell of these rows: it raises a `TypeError`
   * on a date, time or timestamp.
   */
  predicate Encodable(rows: seq<Row>) {
    forall i, j :: 0 <= i < |rows| && 0 <= j < |rows[i]| ==> !rows[i][j].Temporal?
  }

  /** The `TypeError` `json.dumps(preview, indent=2)` raises while a prompt is being built. */
  datatype PromptError = PreviewNotSerialisable

  /** A DataFrame: the header in display order and the rows in order. */
  datatype Table = Table(header: seq<string>, rows: seq<Row>)

  /** `pd.DataFrame()`. */
  const EmptyTable: Table := Table([], [])

  /** `df.head(n)`: the first `n` rows, or all of them when there are fewer. */
  function Head(rows: seq<Row>, n: nat): (r: seq<Row>)
    ensures |r| <= n && |r| <= |rows| && r == rows[..|r|]
    ensures |rows| <= n ==> r == rows
  {
    if |rows| <= n then rows else rows[..n]
  }

  /**
   * A Python value a snippet can bind: `None`, a DataFrame, the records of a
   * DataFrame (`to_dict(orient="records")`), a string, one of the helpers put
   * in the namespace (`pd`, `find_column`, `datetime`), or any other object.
   */
  datatype Value =
    | NoneValue
    | Frame(table: Table)
    | Records(header: seq<string>, rows: seq<Row>)
    | Str(text: string)
    | Helper(name: string)
    | Opaque(id: nat)

  /** The variables of a snippet's namespace. */
  type Namespace = map<string, Value>

  /** `local_vars.get(name, None)`. */
  function Lookup(ns: Namespace, name: string): (v: Value)
    ensures name !in ns ==> v == NoneValue
    ensures name in ns ==> v == ns[name]
  {
    if name in ns then ns[name] else NoneValue
  }

  /** What `exec` did with a snippet: raised, or ran to the end leaving these variables. */
  datatype RunOutcome = Raised(error: string, trace: string) | Completed(locals: Namespace)

  /**
   * The file system and the pandas readers, as the loaders see them:
   * `os.path.exists`, `pd.read_csv`, `pd.ExcelFile(path).sheet_names`,
   * `pd.read_excel(path, sheet_name=name)` and `pd.read_excel(path)`. A
   * reader gives what it read, or the message of the exception it raised on
   * an existing file it cannot parse (a corrupt workbook, an empty CSV).
   */
  datatype Disk = Disk(
    pathExists: string -> bool,
    readCsv: string -> Result<Table, string>,
    sheetNames: string -> Result<seq<string>, string>,
    readSheet: (string, string) -> Result<Table, string>,
    readFirstSheet: string -> Result<Table, string>)

  /**
   * What a loader raises: its own `ValueError` or `FileNotFoundError`, with
   * the message, or the exception a pandas reader raised, passed through.
   */
  datatype LoadError = ValueError(message: string) | FileNotFoundError(message: string) | ReadFailed(message: string)

  /** The record the loaders keep per sheet: the DataFrame, its header, a preview and its shape. */
  datatype SheetInfo = SheetInfo(df: Table, columns: seq<string>, preview: seq<Row>, shape: (nat, nat))

  /**
   * `{"df": df, "columns": list(df.columns), "preview": df.head(5).to_dict(...), "shape": df.shape}`:
   * the preview is the first five rows, or every row of a shorter table.
   */
  function Describe(t: Table): (info: SheetInfo)
    ensures info.df == t && info.columns == t.header && info.shape == (|t.rows|, |t.header|)
    ensures |info.preview| == (if |t.rows| < 5 then |t.rows| else 5)
    ensures info.preview == t.rows[..|info.preview|]
  {
    SheetInfo(t, t.header, Head(t.rows, 5), (|t.rows|, |t.header|))
  }
}
