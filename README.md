# SheetShift core, modelled in Dafny

SheetShift answers questions about spreadsheets and edits them. It loads a workbook, asks a
language model for a short pandas snippet, runs the snippet on a copy of a sheet, and writes a
new workbook when a sheet was updated or created. The parts worth modelling are the small
rules around those calls:

- the three `find_column` versions (the multi-sheet agent, the single-sheet tool and the
  stand-alone script);
- the stripping of code fences from model output;
- the fallback intent record;
- the loader's extension dispatch and its five-row preview;
- the snippet runner's result record;
- the output file name;
- the bookkeeping of `process_query_all_sheets`: which sheets are updated, when a table is
  replaced, how errors accumulate, the default name of a new sheet, and when a file is saved;
- the null summary of the stand-alone script.

The language model, `exec`, pandas, the file system and the clock are parameters. The model's
answers are `Responses`, or an `Option<string>` that is `None` when reading the answer raised.
`exec` is a function from code and namespace to `RunOutcome`. The file system is a `Disk` of
reader functions, each giving a table or the exception it raised. The clock is a `DateTime`, and the writer's failure is an `Option<string>`.
Tables are values, so "runs on a copy of the sheet" holds by construction.

Modules, one file each:

- `Common`, `Text`, `Search`, `Tables`, `Paths`: Python's string and path operations, the
  first-match search and the data.
- `AgentColumns`, `AgentCodegen`, `AgentLoader`, `AgentSnippet`, `AgentPipeline`:
  `excelagent-2.py`.
- `PipelineFacts`: the properties of `process_query_all_sheets` as a whole.
- `ExcelTool`: `tools/exceltool.py`.
- `MainScript`: `main.py`.
- `Resolvers`: the three `find_column` versions compared.

The imperative parts of the source are methods with `for` loops, or step-by-step branches, proved equal to a specification
function, and the lemmas are stated about that function:

- `AgentCodegen.CleanResponse` against `AgentCodegen.Cleaned`;
- `AgentLoader.LoadAllSheets` against `AgentLoader.LoadedWorkbook`;
- `AgentPipeline.UpdateSheets` against `AgentPipeline.UpdateOutcome`, which is built on
  `AgentPipeline.UpdateRun`;
- `AgentPipeline.ProcessQueryAllSheets` against `AgentPipeline.Processed`.

Behaviour of the code worth noting:

- A search term that normalises to "" is contained in every header, so the agent's partial
  pass would take the first column. The exact pass runs first, though, so that holds only
  when no column itself normalises to "" (see `AgentColumns.EmptyTermTakesFirstColumn`).
- Every code prompt is built before any `try`, and it writes the sheet's five-row preview
  with `json.dumps`, which raises a `TypeError` for a date, time or timestamp cell. The
  query branch then raises before its snippet runs. The update loop raises at the first
  selected sheet whose preview holds such a cell, and the sheets it already updated are
  lost with the exception. The tool's `generate_code` raises as well. Cells of this kind are
  `Temporal`, and the outcome is `PromptNotSerialisable` (`PipelineFacts.UpdatePromptRaises`,
  `PipelineFacts.QueryBranch`, `ExcelTool.GenerateCode`).

Where the code and its prose disagree, the model follows the code:

- The intent prompt allows `"target_sheets": null`. For an update, the code then evaluates
  `"all" in None`, which raises a `TypeError` out of `process_query_all_sheets`. The model keeps
  this as the fatal outcome `TargetsNotIterable` (`PipelineFacts.NullTargetsRaise`).

## Model

| member | source | states |
|---|---|---|
| Search.FirstIndex | excelagent-2.py:77-80 | the index a first-match loop returns satisfies the test, and no earlier element does; `None` means that no element does |
| AgentColumns.FindColumn | excelagent-2.py:72-88 | the result is `None` or one of the headers |
| AgentColumns.ExactMatchWins | excelagent-2.py:77-86 | the first header that normalises to the term is returned, even when an earlier header matches partially |
| AgentColumns.PartialMatchOtherwise | excelagent-2.py:83-86 | with no exact match, the first header whose normalised form contains the term, or is contained in it, is returned |
| AgentColumns.NotFoundIff | excelagent-2.py:85-88 | `None` exactly when no header matches the term in either direction |
| AgentColumns.TermVariants | excelagent-2.py:74 | terms that differ only in letter case, `_` and spaces resolve to the same header |
| AgentColumns.EmptyTermTakesFirstColumn | excelagent-2.py:83-86 | a term that normalises to "" gives the first header when no header normalises to "" |
| Text.Normalize | excelagent-2.py:74 | lower-casing and deleting "_" and " " never lengthens a name (its meaning is `Text.NormalizeEqualIff`) |
| Text.Lower | excelagent-2.py:29 | `lower()` keeps the length (one character for one, ASCII letters only) |
| Text.NormalizeEqualIff | excelagent-2.py:74 | two names normalise alike exactly when they are equal after skipping separators and ignoring case (an independent recursive definition) |
| Text.RemoveAll | excelagent-2.py:203 | `replace(p, "")` never lengthens the text |
| Text.NoFenceAfterRemoval | excelagent-2.py:202-203 | after `replace("```", "")` no "```" is left anywhere |
| Text.Strip | excelagent-2.py:205 | `strip()` never lengthens a text (what it keeps is `Text.StripInfix`) |
| Text.StripLeftSuffix | excelagent-2.py:200 | `lstrip()` leaves a suffix of its input that does not start with whitespace, and every character it drops is whitespace |
| Text.StripRightPrefix | excelagent-2.py:205 | `rstrip()` leaves a prefix of its input that does not end with whitespace, and every character it drops is whitespace |
| Text.StripInfix | excelagent-2.py:205 | `strip()` leaves a contiguous piece of its input, with whitespace at neither end, and removes nothing but whitespace before and after that piece |
| Text.StripPadded | excelagent-2.py:205 | `strip()` removes nothing but whitespace before and after the piece it keeps |
| Text.NoFenceAfterStrip | excelagent-2.py:205 | `strip()` cannot create a fence |
| Text.BackticksStrip | tools/exceltool.py:171 | `strip()` keeps every backtick |
| AgentCodegen.RemoveMarkers | excelagent-2.py:202-203 | deleting markers in turn never lengthens the text, and when the last marker is "```" none is left |
| AgentCodegen.Cleaned | excelagent-2.py:200-205 | the cleaned code has whitespace at neither end and is no longer than the answer |
| AgentCodegen.CleanResponse | excelagent-2.py:200-205 | the marker loop returns `Cleaned(text, markers)`: strip, delete each marker everywhere in order, strip |
| AgentCodegen.CleanedHasNoFence | excelagent-2.py:202-205 | when the last marker is "```", the cleaned code holds no "```" and is trimmed; this covers lines 121-123, 241-244 and 276-279 too |
| AgentCodegen.PlainResponse | excelagent-2.py:239-244 | an answer without backticks is only stripped |
| AgentCodegen.StripIdempotent | excelagent-2.py:205 | stripping twice is stripping once |
| AgentCodegen.FencedBlock | excelagent-2.py:274-279 | "```python" + code + "```" comes back as the stripped code when the code holds no backtick |
| AgentCodegen.FallbackIntent | excelagent-2.py:127-133 | the fallback record is `query_data`, with null targets, null name and null fields, and the user's query as description |
| AgentCodegen.ParsedIntent | excelagent-2.py:119-133 | an unreadable answer or an unparsable cleaned text gives the fallback; otherwise the result is the parsed record of the cleaned text |
| AgentCodegen.DetectQueryIntent | excelagent-2.py:119-124 | the imperative cleaning and parsing returns `ParsedIntent` |
| AgentCodegen.ParsedFromCleanText | excelagent-2.py:120-124 | any record other than the fallback was parsed from a fence-free, trimmed text |
| AgentLoader.LoadedWorkbook | excelagent-2.py:22-67 | empty path: `ValueError`. Missing file: `FileNotFoundError`. ".csv": one sheet named "CSV", or what `read_csv` raised. ".xls"/".xlsx": what `ExcelFile` raised, or what reading the first unreadable sheet in order raised, or else the file's sheet names in order, each with its table. Any other extension: `ValueError`. Every loaded workbook lists exactly its sheets, with previews of at most five leading rows |
| AgentLoader.ReadSheets | excelagent-2.py:50-57 | what reading the first unreadable sheet raised; otherwise every listed sheet by name, each with its own table and a preview of at most five leading rows |
| AgentLoader.ReadAllSheets | excelagent-2.py:50-57 | the loop over the sheet names, which stops at the first sheet that cannot be read, returns `ReadSheets` |
| AgentLoader.LoadAllSheets | excelagent-2.py:22-67 | the loader, step by step, returns `LoadedWorkbook` |
| AgentLoader.Extension | excelagent-2.py:29 | the lower-cased extension is empty or starts with its dot |
| Tables.Describe | excelagent-2.py:52-56 | the record holds the table, its header, its shape, and a preview of its first five rows, or all rows of a shorter table |
| AgentLoader.UpperCaseCsv | excelagent-2.py:29-31 | the extension is compared case-insensitively: "a.CSV" is read as CSV |
| AgentLoader.OtherExtensions | excelagent-2.py:66-67 | "a.txt" and a name without an extension are unsupported |
| AgentSnippet.ExecuteSnippet | excelagent-2.py:284-308 | the record is a failure exactly when `exec` raised, and then carries its message and traceback |
| AgentSnippet.SnippetNamespace | excelagent-2.py:286-289 | the extra variables are kept as given, over the defaults, and without an extra `df` the snippet's `df` is the sheet's table |
| AgentSnippet.NamespaceContents | excelagent-2.py:286-289 | the snippet sees `df`, `pd`, `find_column` and `datetime`; extra variables override them |
| AgentSnippet.UnboundNamesAreNone | excelagent-2.py:293-295 | `result`, `new_sheet_name` and `new_df` read back as bound, or as `None` when unbound |
| Paths.Stamp | excelagent-2.py:315 | a stamp is at least fifteen characters |
| Paths.Split | excelagent-2.py:316 | the name part is a slash-free tail of the path |
| Paths.ExtensionStart | excelagent-2.py:317 | `splitext` cuts at the end or at a dot followed by no slash |
| Paths.SplitExt | excelagent-2.py:317 | root and extension put back together give the name, and the extension is empty or a slash-free text starting with its dot |
| Paths.Join | excelagent-2.py:318 | the joined path ends with the joined name |
| Paths.OutputPath | excelagent-2.py:316-318 | the output path ends with `{stem}_updated_{stamp}.xlsx` |
| Paths.StampShape | excelagent-2.py:315 | a stamp of a valid date is fifteen characters: digits, with `_` at position 8 |
| Paths.StampNoSlash | excelagent-2.py:315 | a stamp never holds `/` |
| Paths.SplitJoin | excelagent-2.py:316-318 | splitting a directory part joined with a slash-free name gives both back |
| Paths.OutputPathPlacement | excelagent-2.py:316-318 | the output file lies in the input's directory and is named `{stem}_updated_{stamp}.xlsx` |
| Paths.OutputPathExtension | excelagent-2.py:318 | the output's extension is ".xlsx", whatever the input's extension |
| AgentPipeline.SaveUpdatedExcel | excelagent-2.py:313-335 | a writer failure is re-raised. Otherwise the file holds the sheets and then the new sheets, is placed beside the input, is named after the input's stem and the clock, and has extension ".xlsx" |
| AgentPipeline.Written | excelagent-2.py:450 | one entry per loaded name, in load order, with that sheet's current table |
| AgentPipeline.NewSheetName | excelagent-2.py:370 | the sheet name is never empty: the snippet's own string, or one starting with "NewSheet_" |
| AgentPipeline.DefaultSheetName | excelagent-2.py:370 | without a usable name, the sheet is "NewSheet_" plus a fifteen-character stamp |
| AgentPipeline.CreateSheet | excelagent-2.py:367-377 | fatal exactly when `new_df` is neither `None` nor a DataFrame. Otherwise exactly one of a sheet or an error. A sheet exactly when the snippet ran and left a DataFrame, named by `NewSheetName` |
| AgentPipeline.SheetsToUpdate | excelagent-2.py:384-386 | null targets raise; a target list without "all" selects exactly that list, in its order; otherwise the result is all loaded names |
| AgentPipeline.AllSelectsEverySheet | excelagent-2.py:384-386 | missing targets, or "all" among them, select every loaded name in load order |
| AgentPipeline.UpdateStep | excelagent-2.py:388-416 | one pass of the update loop whose prompt was built keeps the set of sheet names; what it does by the snippet's outcome is stated by `UpdateStepFacts`, and the pass whose prompt cannot be built by `UpdateOutcome` |
| AgentPipeline.UpdateStepFacts | excelagent-2.py:389-416 | by the snippet's outcome: a raise adds exactly "Error in {name}: {error}" and changes no sheet; a DataFrame in `result` becomes the sheet's table and the name is recorded; any other result changes nothing; an unknown name changes nothing. Only the named sheet's table can change, and its header and preview stay |
| AgentPipeline.UpdateRun | excelagent-2.py:388-416 | the loop as a fold keeps the set of sheet names |
| AgentPipeline.UpdateOutcome | excelagent-2.py:388-398 | the loop raises `PromptNotSerialisable` exactly when some selected name is a loaded sheet whose preview `json.dumps` cannot write (line 217; no pass changes a preview); otherwise it ends as `UpdateRun` from the loaded sheets with no records |
| AgentPipeline.UpdateSheets | excelagent-2.py:388-416 | the imperative loop, with `continue` for unknown names and a raise at the first pass whose prompt cannot be built, returns `UpdateOutcome` |
| AgentPipeline.UpdateRunRecords | excelagent-2.py:404-416 | `sheets_processed` and `errors` only grow. Each selected name adds at most one record. Every recorded name was selected and loaded |
| AgentPipeline.UpdateRunSheets | excelagent-2.py:388-408 | an unselected sheet is untouched, and every sheet keeps its loaded header and preview |
| AgentPipeline.UpdateRunChangedRecorded | excelagent-2.py:406-408 | a sheet whose table changed is in `sheets_processed` |
| AgentPipeline.UpdateRunFinalTable | excelagent-2.py:388-408 | after the loop, a sheet's table is the DataFrame left by the last pass over it that left one (each pass running on the sheet as earlier passes left it), or its loaded table when no pass left one |
| AgentPipeline.NoFramePassKeepsSheet | excelagent-2.py:388-408 | a sheet for which no pass left a DataFrame ends the loop with the table it was loaded with |
| AgentPipeline.LastFramePassWins | excelagent-2.py:388-408 | a sheet ends the loop with the DataFrame of the last pass over it that left one |
| AgentPipeline.UnknownNamesSkipped | excelagent-2.py:389-390 | selected names that are not loaded sheets leave no trace |
| AgentPipeline.QuerySheet | excelagent-2.py:422-446 | at most one error, and none when a result came back. It raises only when there is a first sheet with a non-empty name, and then only `PromptNotSerialisable` (its preview cannot be written into the prompt, line 256, which always raises when it applies) or `QueryResultNotSerialisable` (the result cannot be printed, line 442) |
| AgentPipeline.Unprintable | excelagent-2.py:442 | a DataFrame, records, a string or `None` is always printable; which other objects are not is the environment's |
| AgentPipeline.HandleIntent | excelagent-2.py:361-446 | every branch keeps the set of loaded sheet names |
| AgentPipeline.Finish | excelagent-2.py:448-457 | a file is written exactly when a sheet was updated or created and the writer did not fail. Its sheets are the loaded names with current tables, then the new sheets, at the output path. A failed write appends "Failed to save file: ..." |
| AgentPipeline.CreateNewSheet | excelagent-2.py:361-380 | the imperative create branch returns `CreateSheet` |
| AgentPipeline.QueryFirstSheet | excelagent-2.py:419-446 | the imperative query branch returns `QuerySheet` |
| AgentPipeline.SaveIfChanged | excelagent-2.py:448-457 | the imperative save returns `Finish` |
| AgentPipeline.Processed | excelagent-2.py:340-459 | the result of `process_query_all_sheets`: load, detect the intent, run its branch, save. It carries no contract of its own; what it promises is the `PipelineFacts` lemmas |
| AgentPipeline.ProcessQueryAllSheets | excelagent-2.py:340-459 | the imperative function returns `Processed` |
| PipelineFacts.Known | excelagent-2.py:388-390 | the selected names that are loaded sheets: no more than were selected, each selected and loaded |
| PipelineFacts.EverySuccessRecorded | excelagent-2.py:404-408 | when every snippet leaves a DataFrame, every selected loaded sheet is recorded in selection order and no error is added |
| PipelineFacts.EveryFailureReported | excelagent-2.py:414-416 | when every snippet raises, no sheet changes, nothing is recorded, and each selected loaded sheet adds one error |
| PipelineFacts.LoadFailureRaised | excelagent-2.py:344 | a load failure escapes unchanged |
| PipelineFacts.ProcessedSteps | excelagent-2.py:344-459 | a successful run is the intent's branch on the loaded workbook, followed by the save |
| PipelineFacts.NullTargetsRaise | excelagent-2.py:384-386 | an update with null `target_sheets` raises |
| PipelineFacts.UnknownTargetsIgnored | excelagent-2.py:386-390 | targets naming no loaded sheet record nothing and save nothing |
| PipelineFacts.BranchesKeepApart | excelagent-2.py:353-446 | the record carries the intent. Only an update records sheets, only a creation adds a sheet (at most one), and only a query sets `query_result` |
| PipelineFacts.HandledBranches | excelagent-2.py:361-446 | only the update branch records sheets, only the create branch adds a sheet (at most one), and only the query branch sets a result |
| PipelineFacts.UnreadableIntentQueries | excelagent-2.py:125-133 | an unreadable intent answer is run as a query: nothing updated, created or saved, and only building the query prompt or printing the result can raise |
| PipelineFacts.QueryBranch | excelagent-2.py:419-446 | the query works on the first sheet when its name is not empty. A preview `json.dumps` cannot write raises before the snippet runs. Otherwise a result that `json.dumps` can print is reported with no error, one it cannot print raises, a raised error is reported alone, and nothing is saved |
| PipelineFacts.CreateBranch | excelagent-2.py:361-380 | a DataFrame `new_df` gives exactly one new sheet, named by the snippet or the clock. Otherwise one "Failed to create new sheet" error, no sheet and no save |
| PipelineFacts.UpdatePromptRaises | excelagent-2.py:388-398 | an update raises `PromptNotSerialisable` when a selected name is a loaded sheet whose preview cannot be written into its prompt, whatever the other passes did |
| PipelineFacts.UpdateBranch | excelagent-2.py:382-416 | only selected, loaded names are recorded, at most as many as were selected, and no sheet is created. A completed update had every selected loaded sheet's preview writable |
| PipelineFacts.NamedTargetsRecorded | excelagent-2.py:386-408 | an update naming its sheets without "all" records only loaded sheets it named |
| PipelineFacts.NamedTargetsOnly | excelagent-2.py:386-452 | the file saved after such an update holds every loaded sheet it did not name with its loaded table |
| PipelineFacts.UpdatedTables | excelagent-2.py:382-416 | each loaded sheet leaves the update branch with the DataFrame of the last pass over it that left one, or with its loaded table, which is what `Finish` then writes; no sheet is created |
| PipelineFacts.SaveTrigger | excelagent-2.py:449-456 | a file is written exactly when a sheet was updated or created and the writer did not fail. A failed write is the last error |
| PipelineFacts.SavedFile | excelagent-2.py:449-453 | the file sits in the input's directory as `{stem}_updated_{stamp}.xlsx`. It holds every loaded sheet in load order, where each sheet not processed keeps its loaded table, and then the created sheet |
| PipelineFacts.HandledSheets | excelagent-2.py:404-408 | a sheet changed by the intent's branch was recorded as processed |
| PipelineFacts.WrittenSheets | excelagent-2.py:450-452 | the written sheets are the loaded names in order, then the new sheets; an unprocessed sheet keeps its loaded table |
| ExcelTool.LoadExcel | tools/exceltool.py:15-33 | it raises exactly for an empty path (`ValueError`), a missing file (`FileNotFoundError`) or a file `read_excel` cannot parse (its exception). Otherwise the first sheet, with a preview of at most five leading rows |
| ExcelTool.FindColumn | tools/exceltool.py:47-67 | the result is `None` or one of the headers |
| ExcelTool.ExactMatchWins | tools/exceltool.py:56-59 | the first header that normalises to the term is returned |
| ExcelTool.PartialMatchOtherwise | tools/exceltool.py:62-65 | with no exact match, the first header whose normalised form contains the normalised term is returned |
| ExcelTool.NotFoundIff | tools/exceltool.py:62-67 | `None` exactly when no normalised header contains the normalised term |
| ExcelTool.LongerTermNotFound | tools/exceltool.py:62-65 | a term longer than every header, once normalised, is never found |
| ExcelTool.DropLeading | tools/exceltool.py:174-177 | dropping a leading marker leaves a trimmed piece of the text, less exactly the marker's backticks; what follows the marker is that piece with only whitespace around it; other texts are left alone |
| ExcelTool.DropTrailing | tools/exceltool.py:178-179 | the same for a trailing marker, with what precedes it |
| ExcelTool.GenerateCode | tools/exceltool.py:116-188 | it raises exactly when the preview holds a cell `json.dumps` cannot write, since the prompt is built before the `try`. Otherwise a failed call gives the fallback snippet, and an answer gives a trimmed piece of the stripped answer that lost at most nine backticks; an answer without a leading or trailing fence is only stripped |
| ExcelTool.StartNamespace | tools/exceltool.py:76 | the snippet sees exactly `df` (the sheet's table), `pd` and `find_column` |
| ExcelTool.ExecuteSnippet | tools/exceltool.py:70-86 | failure exactly when `exec` raised, with its message and traceback. A DataFrame result becomes the records of its first fifty rows at most; any other result is returned as it is |
| MainScript.FindColumn | main.py:6-13 | the result is `None` or one of the headers |
| MainScript.FoundIff | main.py:10-13 | a header comes back exactly when one equals the term up to letter case |
| MainScript.FirstMatchWins | main.py:10-12 | that header is the first such in header order |
| MainScript.NullCounts | main.py:16 | one count per header, that column's number of missing cells |
| MainScript.Sum | main.py:17 | the total is zero exactly when every count is, and no count exceeds it |
| MainScript.PositiveCounts | main.py:20-25 | every entry of the per-column map is positive and keyed by a header |
| MainScript.SummarizeNulls | main.py:16-26 | the total is the sum of the column counts. The flag holds exactly when the total is positive. The per-column map is the positive counts |
| MainScript.TotalCountsEveryMissingCell | main.py:16-24 | the total equals the missing cells counted row by row |
| MainScript.HasNullsIff | main.py:23 | `has_null_values` holds exactly when some cell under a header is missing |
| MainScript.PerColumnKeys | main.py:20-25 | a name is a key exactly when some column of that name has a missing cell |
| MainScript.PerColumnValues | main.py:20-25 | a column's entry is its count, unless a later column of the same name also has missing cells |
| Resolvers.ToolFoundAgentFinds | tools/exceltool.py:62-65 | whatever the tool's version finds, the agent's version finds something too |
| Resolvers.ScriptFoundAllFind | main.py:10-13 | when the script's version finds a header, both normalising versions find one too |
| Resolvers.AgreeOnExactMatch | excelagent-2.py:77-80 | with an exact normalised match, the agent and the tool return the same header |
| Resolvers.NormalizeIsSqueezed | excelagent-2.py:74 | the normalisation equals dropping separators and lower-casing the rest, character by character |
| Resolvers.UnitPriceAgainstPrice | excelagent-2.py:85 | "unitprice" finds "Price" only in the agent's version |
| Resolvers.SeparatorsOnlyNormalised | main.py:11 | "tax id" finds "Tax_ID" in the normalising versions but not in the script's |

## Left out

- Language-model calls and their prompts are not modelled. The answers are parameters. A `generate_content` call, or reading `.text`, that raises outside any `try` is not modelled: in `detect_query_intent` (line 117), `generate_new_sheet_code` (lines 199-200), `generate_update_code` (lines 238-239) and `generate_query_code` (lines 273-274). Those exceptions would escape `process_query_all_sheets`.
- Of the prompts, only the `json.dumps` of the preview is modelled. A `NaT` cell, which also makes `json.dumps` raise, is a missing value here (`Null`), so that case is not modelled. `NaN` is written by `json.dumps` and does not raise. Headers are strings, so a `json.dumps` of the header list never raises in the model.
- `json.loads` and reading the record: `parseIntent` is a parameter. It is taken to produce records that have the `intent` and `description` keys, so the `KeyError` the source raises for a record without them is not modelled.
- `exec` and `textwrap.dedent` are a parameter. Every exception a snippet raises is taken to be caught. A `SystemExit` or `KeyboardInterrupt` (a snippet calling `exit()`) is not an `Exception`, so it would escape `execute_snippet` (line 303). That case is not modelled.
- `ExcelTool.LoadExcel`: the message of the `FileNotFoundError` for a missing file is written with the path in single quotes. Python's quoting of a path that itself holds a quote is not modelled.
- `AgentPipeline.QuerySheet`: which results `json.dumps(..., default=str)` cannot encode is a parameter (`unserialisable`, over the objects the model does not look into). Records, strings, `None` and the helpers are always printable.
- pandas I/O: reading is a `Disk` of functions that return a table or the message of what they raised (the exception's type is not kept), and writing only records what would be written. Partial writes, the writer's renaming of clashing sheet names, and sheet names Excel refuses are not modelled.
- `datetime.now()`: the clock is a parameter. Years before 1000 (where `%Y` pads differently) are outside `ValidDateTime`.
- `str.lower()` is modelled for ASCII letters only. Unicode case mapping is left out.
- Column names are strings. `str(col)` of non-string headers is not modelled.
- `AgentPipeline.NewSheetName`: only a non-empty string counts as a given name. Other truthy values (numbers, objects) used as sheet-name keys are treated as absent.
- `AgentPipeline.CreateSheet`: a `new_df` that is neither `None` nor a DataFrame is fatal, because of the `len` and `to_string` calls at lines 372-374. A pandas Series, which has both, is not modelled.
- A `target_sheets` that is a string (where `"all" in` tests for a substring) is not modelled. Targets are absent, null or a list.
- Duplicate sheet names: the loader's dict and the save's dict comprehension (line 450) would merge them. The model keeps the name list as loaded.
- `AgentPipeline.Responses`: the update prompt's answer is indexed by position and sheet name. The prompt text, which also shows the stale header and preview, is not modelled.
- `ExcelTool.GenerateCode`: the contract says the code is a trimmed piece of the stripped answer and bounds only the backticks removed (at most the markers' nine). That nothing but a marker and whitespace goes at each trim is stated for each step (`ExcelTool.DropLeading`, `ExcelTool.DropTrailing`), not for the whole.
- `MainScript.PerColumnValues`: with duplicate headers, the dictionary keeps the last positive count, so the lemma requires later same-named columns to have none.
- Printing, the console summary in `interactive_loop`, and `answer_excel_question`'s prompt text are not modelled.
- `excelagent.py`, `agent.py` (the Streamlit interface), `tools/DPTool.py` and `test.py` are not part of this model.
