/**
 * The single-sheet tool: `load_excel`, its own `find_column` (the partial
 * pass only looks for the term inside a header), the fence trimming and
 * fallback of `generate_code`, and `execute_snippet`, which hands back at
 * most fifty rows of a DataFrame result.
 */
module ExcelTool {
  import opened Common
  import opened Text
  import opened Tables
  import Search

  // ---------------------------------------------------------------------------
  // load_excel

  /** `load_excel`'s record: the sheet's `SheetInfo` plus the path. */
  datatype ExcelInfo = ExcelInfo(sheet: SheetInfo, path: string)

  const PathRequiredMessage: string := "A path to the Excel file is required."

  /** The message of the `FileNotFoundError` `pd.read_excel` raises for a missing file. */
  function NoSuchFile(path: string): string {
    "[Errno 2] No such file or directory: '" + path + "'"
  }

  /**
   * `load_excel(path)`: refuses an empty path, otherwise reads the first
   * sheet; `pd.read_excel` raises for a missing file and for a file it
   * cannot parse.
   */
  function LoadExcel(path: string, disk: Disk): (r: Result<ExcelInfo, LoadError>)
    ensures r.Err? <==> path == [] || !disk.pathExists(path) || disk.readFirstSheet(path).Err?
    ensures path == [] ==> r == Err(ValueError(PathRequiredMessage))
    ensures path != [] && !disk.pathExists(path) ==> r == Err(FileNotFoundError(NoSuchFile(path)))
    ensures path != [] && disk.pathExists(path) && disk.readFirstSheet(path).Err?
            ==> r == Err(ReadFailed(disk.readFirstSheet(path).error))
    ensures r.Ok? ==> r.value.path == path && r.value.sheet.df == disk.readFirstSheet(path).value
    ensures r.Ok? ==> |r.value.sheet.preview| <= 5 && |r.value.sheet.preview| <= |r.value.sheet.df.rows|
    ensures r.Ok? ==> r.value.sheet.preview == r.value.sheet.df.rows[..|r.value.sheet.preview|]
  {
    if path == [] then Err(ValueError(PathRequiredMessage))
    else if !disk.pathExists(path) then Err(FileNotFoundError(NoSuchFile(path)))
    else match disk.readFirstSheet(path)
      case Err(m) => Err(ReadFailed(m))
      case Ok(df) => Ok(ExcelInfo(Describe(df), path))
  }

  // ---------------------------------------------------------------------------
  // find_column

  /** The partial pass of this version: the normalised term lies inside the normalised header. */
  predicate TermInHeader(col: string, key: string) {
    Contains(Normalize(col), key)
  }

  function FindColumn(columns: seq<string>, searchTerm: string): (r: Option<string>)
    ensures r.None? || r.value in columns
  {
    var key := Normalize(searchTerm);
    match Search.FirstIndex(columns, col => Normalize(col) == key)
    case Some(i) => Some(columns[i])
    case None =>
      match Search.FirstIndex(columns, col => TermInHeader(col, key))
      case Some(i) => Some(columns[i])
      case None => None
  }

  /** The first header that normalises exactly to the term wins. */
  lemma ExactMatchWins(columns: seq<string>, searchTerm: string, i: nat)
    requires i < |columns| && Normalize(columns[i]) == Normalize(searchTerm)
    requires forall k :: 0 <= k < i ==> Normalize(columns[k]) != Normalize(searchTerm)
    ensures FindColumn(columns, searchTerm) == Some(columns[i])
  {
    var key := Normalize(searchTerm);
    var j := Search.FirstIndex(columns, col => Normalize(col) == key);
    assert j.Some? && j.value == i;
  }

  /**
   * Without an exact match, the partial pass returns the first header, in
   * header order, whose normalised form contains the normalised term.
   */
  lemma PartialMatchOtherwise(columns: seq<string>, searchTerm: string, i: nat)
    requires i < |columns| && TermInHeader(columns[i], Normalize(searchTerm))
    requires forall k :: 0 <= k < |columns| ==> Normalize(columns[k]) != Normalize(searchTerm)
    requires forall k :: 0 <= k < i ==> !TermInHeader(columns[k], Normalize(searchTerm))
    ensures FindColumn(columns, searchTerm) == Some(columns[i])
  {
    var key := Normalize(searchTerm);
    var exact := Search.FirstIndex(columns, col => Normalize(col) == key);
    assert exact.None?;
    var partial := Search.FirstIndex(columns, col => TermInHeader(col, key));
    assert partial.Some? && partial.value == i;
  }

  /** `None` comes back exactly when no normalised header contains the normalised term. */
  lemma NotFoundIff(columns: seq<string>, searchTerm: string)
    ensures FindColumn(columns, searchTerm).None?
            <==> forall k :: 0 <= k < |columns| ==> !TermInHeader(columns[k], Normalize(searchTerm))
  {
    var key := Normalize(searchTerm);
    forall k | 0 <= k < |columns| && Normalize(columns[k]) == key
      ensures TermInHeader(columns[k], key)
    {
      assert StartsWith(key, key);
    }
  }

  /** A term longer, once normalised, than every normalised header is never found. */
  lemma LongerTermNotFound(columns: seq<string>, searchTerm: string)
    requires forall k :: 0 <= k < |columns| ==> |Normalize(columns[k])| < |Normalize(searchTerm)|
    ensures FindColumn(columns, searchTerm) == None
  {
    var key := Normalize(searchTerm);
    forall k | 0 <= k < |columns|
      ensures !TermInHeader(columns[k], key)
    {
      if TermInHeader(columns[k], key) {
        ContainsLength(Normalize(columns[k]), key);
      }
    }
    NotFoundIff(columns, searchTerm);
  }

  // ---------------------------------------------------------------------------
  // generate_code

  /** The snippet `generate_code` returns when the model call raises. */
  const FallbackCode: string := "\n# Fallback: Display all data\nresult = df.head(50).to_dict(orient='records')\n"

  const PythonFence: string := "```python"

  lemma MarkerBackticks()
    ensures Backticks(Fence) == 3 && Backticks(PythonFence) == 3
  {
    assert Fence == ['`'] + ['`'] + ['`'];
    assert Fence[1..] == "``" && Fence[1..][1..] == "`" && Fence[1..][1..][1..] == [];
    assert PythonFence == Fence + "python";
    BackticksConcat(Fence, "python");
    var p := "python";
    assert p[1..] == "ython" && p[1..][1..] == "thon" && p[1..][1..][1..] == "hon";
    assert p[1..][1..][1..][1..] == "on" && p[1..][1..][1..][1..][1..] == "n";
  }

  /**
   * `if code.startswith(marker): code = code[len(marker):].strip()`: the
   * result lies inside `code`, and only the marker and the whitespace around
   * what follows it go.
   */
  function DropLeading(code: string, marker: string): (r: string)
    ensures Contains(code, r)
    ensures !StartsWith(code, marker) ==> r == code
    ensures StartsWith(code, marker) ==> Trimmed(r) && Backticks(code) == Backticks(marker) + Backticks(r)
    ensures StartsWith(code, marker) ==> PaddedBy(code[|marker|..], r)
  {
    if StartsWith(code, marker) then
      var rest := code[|marker|..];
      assert code == marker + rest;
      BackticksConcat(marker, rest);
      assert StartsWith(rest, rest);
      ContainsInSuffix(code, |marker|, rest);
      StripInfix(rest);
      ContainsTransitive(code, rest, Strip(rest));
      BackticksStrip(rest);
      Strip(rest)
    else
      assert StartsWith(code, code);
      code
  }

  /** `if code.endswith(marker): code = code[:-len(marker)].strip()`, likewise. */
  function DropTrailing(code: string, marker: string): (r: string)
    ensures Contains(code, r)
    ensures !EndsWith(code, marker) ==> r == code
    ensures EndsWith(code, marker) ==> Trimmed(r) && Backticks(code) == Backticks(r) + Backticks(marker)
    ensures EndsWith(code, marker) ==> PaddedBy(code[..|code| - |marker|], r)
  {
    if EndsWith(code, marker) then
      var rest := code[..|code| - |marker|];
      assert code == rest + marker;
      BackticksConcat(rest, marker);
      assert StartsWith(code, rest);
      StripInfix(rest);
      ContainsTransitive(code, rest, Strip(rest));
      BackticksStrip(rest);
      Strip(rest)
    else
      assert StartsWith(code, code);
      code
  }

  /** A text that starts with "```python" starts with "```". */
  lemma PythonFenceIsFence(s: string)
    ensures StartsWith(s, PythonFence) ==> StartsWith(s, Fence)
  {
    if StartsWith(s, PythonFence) {
      assert s[..3] == s[..9][..3] == PythonFence[..3] == Fence;
    }
  }

  /**
   * `generate_code(columns, preview, user_query)`: the prompt is built before
   * the `try`, so a preview `json.dumps` cannot write raises out of the call.
   * Otherwise `response` is the model's text, or `None` when the call raised;
   * only a leading "```python", a leading "```" and a trailing "```" are
   * removed (with the whitespace around them), and fences inside the code stay.
   */
  method GenerateCode(preview: seq<Row>, response: Option<string>) returns (r: Result<string, PromptError>)
    ensures r.Err? <==> !Encodable(preview)
    ensures r.Err? ==> r.error == PreviewNotSerialisable
    ensures Encodable(preview) && response.None? ==> r == Ok(FallbackCode)
    ensures r.Ok? && response.Some? ==> Contains(Strip(response.value), r.value) && Trimmed(r.value)
    ensures r.Ok? && response.Some? ==>
              Backticks(r.value) <= Backticks(response.value) <= Backticks(r.value) + 9
    ensures r.Ok? && response.Some? ==>
              (!StartsWith(Strip(response.value), Fence) && !EndsWith(Strip(response.value), Fence)
               ==> r.value == Strip(response.value))
  {
    if !Encodable(preview) {
      return Err(PreviewNotSerialisable);
    }
    if response.None? {
      return Ok(FallbackCode);
    }
    var text := Strip(response.value);
    StripInfix(response.value);
    BackticksStrip(response.value);
    MarkerBackticks();
    var code := text;
    code := DropLeading(code, PythonFence);
    ContainsTransitive(text, text, code);
    var afterPython := code;
    code := DropLeading(code, Fence);
    ContainsTransitive(text, afterPython, code);
    var afterFence := code;
    code := DropTrailing(code, Fence);
    ContainsTransitive(text, afterFence, code);
    PythonFenceIsFence(text);
    r := Ok(code);
  }

  // ---------------------------------------------------------------------------
  // execute_snippet

  /** `{"ok": True, "result": ...}` or `{"ok": False, "error": ..., "traceback": ...}`. */
  datatype Execution = Succeeded(result: Value) | Failed(error: string, traceback: string)

  /** The variables the snippet starts with: a copy of `df`, `pd` and `find_column`. */
  function StartNamespace(df: Table): (r: Namespace)
    ensures r.Keys == {"df", "pd", "find_column"} && r["df"] == Frame(df)
  {
    map["df" := Frame(df), "pd" := Helper("pd"), "find_column" := Helper("find_column")]
  }

  /**
   * `execute_snippet`: runs `code` (through `exec`) on a namespace holding a
   * copy of `df`; a DataFrame left in `result` comes back as the records of
   * its first fifty rows, any other value as it is, a missing `result` as `None`.
   */
  method ExecuteSnippet(df: Table, code: string, exec: (string, Namespace) -> RunOutcome)
    returns (r: Execution)
    ensures exec(code, StartNamespace(df)).Raised? <==> r.Failed?
    ensures r.Failed? ==> r.error == exec(code, StartNamespace(df)).error
                          && r.traceback == exec(code, StartNamespace(df)).trace
    ensures r.Succeeded? ==>
      var v := Lookup(exec(code, StartNamespace(df)).locals, "result");
      && (v.Frame? ==> r.result.Records? && r.result.header == v.table.header
                       && |r.result.rows| == (if |v.table.rows| < 50 then |v.table.rows| else 50)
                       && r.result.rows == v.table.rows[..|r.result.rows|])
      && (!v.Frame? ==> r.result == v)
  {
    var localVars := StartNamespace(df);
    var outcome := exec(code, localVars);
    match outcome {
      case Raised(error, trace) =>
        r := Failed(error, trace);
      case Completed(locals) =>
        var result := Lookup(locals, "result");
        if result.Frame? {
          result := Records(result.table.header, Head(result.table.rows, 50));
        }
        r := Succeeded(result);
    }
  }
}
