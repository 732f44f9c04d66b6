/**
 * `process_query_all_sheets` and `save_updated_excel`: load the workbook,
 * read the intent, then create a sheet, update the selected sheets or query
 * the first one, collect the errors, and save a new workbook when a sheet
 * was updated or created.
 */
module AgentPipeline {
  import opened Common
  import opened Text
  import opened Tables
  import opened Paths
  import opened AgentCodegen
  import opened AgentLoader
  import opened AgentSnippet
  import Search

  /** What escapes `process_query_all_sheets` as an exception. */
  datatype Fatal =
    | LoadFailed(error: LoadError)  // raised by load_all_sheets
    | TargetsNotIterable            // `"all" in None` when target_sheets is null
    | NewDfNotFrame                 // a new_df that is not a DataFrame has no to_string
    | QueryResultNotSerialisable    // json.dumps cannot print the query's result
    | PromptNotSerialisable         // json.dumps cannot write a sheet's preview into a prompt

  /**
   * The model's answers: to the intent prompt (`None` when reading it
   * raised) with `json.loads` as `parseIntent`, to the new-sheet prompt, to
   * the update prompt of the `k`-th selected sheet, and to the query prompt.
   */
  datatype Responses = Responses(
    intent: Option<string>,
    parseIntent: string -> Option<Intent>,
    newSheet: string,
    update: (nat, string) -> string,
    query: string)

  /**
   * The outside world: the file system, `exec`, the clock as read for a new
   * sheet's name and for the output file's name, the writer's failure, and
   * the objects `json.dumps(..., default=str)` raises for (a dict whose keys
   * are not strings, numbers, booleans or `None`).
   */
  datatype Environment = Environment(
    disk: Disk,
    exec: (string, Namespace) -> RunOutcome,
    createClock: DateTime,
    saveClock: DateTime,
    saveError: Option<string>,
    unserialisable: nat -> bool)

  /** The file `save_updated_excel` wrote: its path and its sheets in writing order. */
  datatype SavedWorkbook = SavedWorkbook(path: string, sheets: seq<(string, Table)>)

  /**
   * The `results` dictionary: the intent, the updated sheets, the created
   * sheets (at most one), the errors, `query_result` and `saved_path` when set.
   */
  datatype QueryResults = QueryResults(
    intent: string,
    sheetsProcessed: seq<string>,
    newSheets: seq<(string, Table)>,
    errors: seq<string>,
    queryResult: Option<Value>,
    saved: Option<SavedWorkbook>)

  // ---------------------------------------------------------------------------
  // save_updated_excel

  /**
   * `save_updated_excel`: writes the sheets, then the new sheets, to
   * `{stem}_updated_{stamp}.xlsx` beside the input; `writeError` is the
   * writer's exception, re-raised to the caller.
   */
  function SaveUpdatedExcel(path: string, sheetsData: seq<(string, Table)>, newSheets: seq<(string, Table)>,
                            clock: DateTime, writeError: Option<string>): (r: Result<SavedWorkbook, string>)
    ensures r.Err? <==> writeError.Some?
    ensures r.Err? ==> r.error == writeError.value
    ensures r.Ok? ==> r.value.sheets == sheetsData + newSheets
    ensures r.Ok? ==> && Split(r.value.path).0 == Split(path).0
                      && Split(r.value.path).1 == OutputName(Split(path).1, Stamp(clock))
                      && SplitExt(r.value.path).1 == ".xlsx"
  {
    var newPath := OutputPath(path, Stamp(clock));
    StampNoSlash(clock);
    OutputPathPlacement(path, Stamp(clock));
    OutputPathExtension(path, Stamp(clock));
    if writeError.Some? then Err(writeError.value) else Ok(SavedWorkbook(newPath, sheetsData + newSheets))
  }

  /** `{name: sheets[name]["df"] for name in sheet_names}`, in load order. */
  function Written(sheets: map<string, SheetInfo>, sheetNames: seq<string>): (r: seq<(string, Table)>)
    requires forall i :: 0 <= i < |sheetNames| ==> sheetNames[i] in sheets
    ensures |r| == |sheetNames|
    ensures forall i :: 0 <= i < |r| ==> r[i] == (sheetNames[i], sheets[sheetNames[i]].df)
  {
    seq(|sheetNames|, i requires 0 <= i < |sheetNames| => (sheetNames[i], sheets[sheetNames[i]].df))
  }

  // ---------------------------------------------------------------------------
  // Creating a sheet

  /** `exec_result["new_sheet_name"] or f"NewSheet_{timestamp}"`. */
  function NewSheetName(given: Value, clock: DateTime): (r: string)
    ensures r != []
    ensures (given.Str? && r == given.text) || StartsWith(r, "NewSheet_")
  {
    if given.Str? && given.text != [] then given.text else "NewSheet_" + Stamp(clock)
  }

  /** Without a usable name the sheet is called "NewSheet_" and a fifteen-character stamp. */
  lemma DefaultSheetName(given: Value, clock: DateTime)
    requires !(given.Str? && given.text != []) && ValidDateTime(clock)
    ensures var name := NewSheetName(given, clock);
            |name| == 24 && name[..9] == "NewSheet_" && name[17] == '_'
            && forall k :: 9 <= k < 24 && k != 17 ==> IsDigit(name[k])
  {
    StampShape(clock);
    var name := NewSheetName(given, clock);
    assert forall k :: 9 <= k < 24 ==> name[k] == Stamp(clock)[k - 9];
  }

  /**
   * The create branch: the created sheet when the snippet ran and left a
   * DataFrame in `new_df`, otherwise one error; a `new_df` of another kind is fatal.
   */
  function CreateSheet(responses: Responses, env: Environment): (r: Result<(seq<(string, Table)>, seq<string>), Fatal>)
    ensures r.Ok? ==> |r.value.0| + |r.value.1| == 1
    ensures var e := ExecuteSnippet(EmptyTable, Cleaned(responses.newSheet, PythonMarkers), map[], env.exec);
            && (r.Err? <==> e.Executed? && e.newDf != NoneValue && !e.newDf.Frame?)
            && (r.Ok? && r.value.0 != [] <==> e.Executed? && e.newDf.Frame?)
            && (r.Ok? && r.value.0 != [] ==> r.value.0 == [(NewSheetName(e.newSheetName, env.createClock), e.newDf.table)])
  {
    var code := Cleaned(responses.newSheet, PythonMarkers);
    var execResult := ExecuteSnippet(EmptyTable, code, map[], env.exec);
    if execResult.Executed? && execResult.newDf != NoneValue then
      if execResult.newDf.Frame? then
        Ok(([(NewSheetName(execResult.newSheetName, env.createClock), execResult.newDf.table)], []))
      else Err(NewDfNotFrame)
    else
      Ok(([], ["Failed to create new sheet: " + (if execResult.ExecFailed? then execResult.error else "Unknown error")]))
  }

  // ---------------------------------------------------------------------------
  // Updating sheets

  /**
   * `sheet_names if "all" in target_sheets else target_sheets`, with a
   * missing `target_sheets` read as `["all"]` and a null one raising.
   */
  function SheetsToUpdate(targets: Targets, sheetNames: seq<string>): (r: Result<seq<string>, Fatal>)
    ensures r.Err? <==> targets.TargetsNull?
    ensures r.Ok? ==> r.value == sheetNames || (targets.TargetList? && r.value == targets.names)
    ensures targets.TargetList? && "all" !in targets.names ==> r == Ok(targets.names)
  {
    match targets
    case TargetsAbsent => Ok(sheetNames)
    case TargetsNull => Err(TargetsNotIterable)
    case TargetList(names) => if "all" in names then Ok(sheetNames) else Ok(names)
  }

  /** With "all" among the targets, or no targets given, every loaded sheet is selected, in load order. */
  lemma AllSelectsEverySheet(targets: Targets, sheetNames: seq<string>)
    requires targets.TargetsAbsent? || (targets.TargetList? && "all" in targets.names)
    ensures SheetsToUpdate(targets, sheetNames) == Ok(sheetNames)
  {
  }

  /** The sheets, `sheets_processed` and `errors` as the update loop carries them. */
  datatype UpdateState = UpdateState(sheets: map<string, SheetInfo>, processed: seq<string>, errors: seq<string>)

  /**
   * One pass of the update loop for the `k`-th selected name: an unknown
   * name is skipped; otherwise the sheet's table is replaced and the name
   * recorded when the snippet ran and left a DataFrame, one error is added
   * when it raised, and nothing changes when it left something else.
   */
  function UpdateStep(st: UpdateState, k: nat, name: string, update: (nat, string) -> string,
                      exec: (string, Namespace) -> RunOutcome): (r: UpdateState)
    ensures r.sheets.Keys == st.sheets.Keys
  {
    if name !in st.sheets then st
    else
      var info := st.sheets[name];
      var code := Cleaned(update(k, name), PythonMarkers);
      match ExecuteSnippet(info.df, code, map[], exec)
      case ExecFailed(error, _) => st.(errors := st.errors + ["Error in " + name + ": " + error])
      case Executed(result, _, _) =>
        if result.Frame? then UpdateState(st.sheets[name := info.(df := result.table)], st.processed + [name], st.errors)
        else st
  }

  /**
   * The outcomes of one pass, by what the snippet did: a snippet that raised
   * adds "Error in {name}: {error}" and changes no sheet; one that left a
   * DataFrame in `result` replaces the sheet's table with it and records the
   * name; one that left anything else changes nothing. Only the named sheet
   * can change, and only its table.
   */
  lemma UpdateStepFacts(st: UpdateState, k: nat, name: string, update: (nat, string) -> string,
                        exec: (string, Namespace) -> RunOutcome)
    ensures var r := UpdateStep(st, k, name, update, exec);
      && (name !in st.sheets ==> r == st)
      && (name in st.sheets ==>
            var e := ExecuteSnippet(st.sheets[name].df, Cleaned(update(k, name), PythonMarkers), map[], exec);
            && (e.ExecFailed? ==> r == st.(errors := st.errors + ["Error in " + name + ": " + e.error]))
            && (e.Executed? && e.result.Frame?
                ==> r == UpdateState(st.sheets[name := st.sheets[name].(df := e.result.table)],
                                     st.processed + [name], st.errors))
            && (e.Executed? && !e.result.Frame? ==> r == st))
      && (forall n :: n in st.sheets && n != name ==> r.sheets[n] == st.sheets[n])
      && (forall n :: n in st.sheets ==> r.sheets[n].columns == st.sheets[n].columns
                                         && r.sheets[n].preview == st.sheets[n].preview)
      && (|| r == st
          || (name in st.sheets && r.processed == st.processed + [name] && r.errors == st.errors)
          || (name in st.sheets && r.sheets == st.sheets && r.processed == st.processed
              && |r.errors| == |st.errors| + 1 && r.errors[..|st.errors|] == st.errors))
      && (r.sheets != st.sheets ==> r.processed == st.processed + [name])
  {
    var r := UpdateStep(st, k, name, update, exec);
    if name in st.sheets {
      var info := st.sheets[name];
      var e := ExecuteSnippet(info.df, Cleaned(update(k, name), PythonMarkers), map[], exec);
      if e.ExecFailed? {
        assert r == st.(errors := st.errors + ["Error in " + name + ": " + e.error]);
        assert r.errors[..|st.errors|] == st.errors;
      } else if e.result.Frame? {
        assert r == UpdateState(st.sheets[name := info.(df := e.result.table)], st.processed + [name], st.errors);
      } else {
        assert r == st;
      }
    }
  }

  /**
   * The update loop over the selected names, as a left fold of the passes
   * whose prompt could be built (see `UpdateOutcome` for the pass that cannot).
   */
  function UpdateRun(st: UpdateState, toUpdate: seq<string>, update: (nat, string) -> string,
                     exec: (string, Namespace) -> RunOutcome): (r: UpdateState)
    ensures r.sheets.Keys == st.sheets.Keys
  {
    if toUpdate == [] then st
    else
      var n := |toUpdate| - 1;
      UpdateStep(UpdateRun(st, toUpdate[..n], update, exec), n, toUpdate[n], update, exec)
  }

  /**
   * The pass over `name` raises while building its prompt: the name is a
   * loaded sheet whose preview `json.dumps` cannot write. No pass changes a
   * preview, so the loaded one decides.
   */
  predicate PromptFails(sheets: map<string, SheetInfo>, name: string) {
    name in sheets && !Encodable(sheets[name].preview)
  }

  /**
   * What the `update_existing` loop ends with: it raises as soon as it
   * reaches a name whose prompt cannot be built, and the sheets, records and
   * errors gathered so far go with the exception; otherwise every pass ran.
   */
  function UpdateOutcome(sheets: map<string, SheetInfo>, toUpdate: seq<string>, update: (nat, string) -> string,
                         exec: (string, Namespace) -> RunOutcome): (r: Result<UpdateState, Fatal>)
    ensures r.Err? <==> exists i :: 0 <= i < |toUpdate| && PromptFails(sheets, toUpdate[i])
    ensures r.Err? ==> r.error == PromptNotSerialisable
    ensures r.Ok? ==> r.value == UpdateRun(UpdateState(sheets, [], []), toUpdate, update, exec)
  {
    match Search.FirstIndex(toUpdate, n => PromptFails(sheets, n))
    case Some(_) => Err(PromptNotSerialisable)
    case None => Ok(UpdateRun(UpdateState(sheets, [], []), toUpdate, update, exec))
  }

  /** The loop of the `update_existing` branch. */
  method UpdateSheets(sheets0: map<string, SheetInfo>, toUpdate: seq<string>, update: (nat, string) -> string,
                      exec: (string, Namespace) -> RunOutcome)
    returns (r: Result<UpdateState, Fatal>)
    ensures r == UpdateOutcome(sheets0, toUpdate, update, exec)
  {
    var sheets, processed, errors := sheets0, [], [];
    for i := 0 to |toUpdate|
      invariant UpdateState(sheets, processed, errors)
                == UpdateRun(UpdateState(sheets0, [], []), toUpdate[..i], update, exec)
      invariant forall k :: 0 <= k < i ==> !PromptFails(sheets0, toUpdate[k])
    {
      assert toUpdate[..i + 1][..i] == toUpdate[..i];
      var sheetName := toUpdate[i];
      if sheetName !in sheets {
        continue;
      }
      var info := sheets[sheetName];
      UpdateRunSheets(UpdateState(sheets0, [], []), toUpdate[..i], update, exec);
      if !Encodable(info.preview) {
        assert PromptFails(sheets0, toUpdate[i]);
        return Err(PromptNotSerialisable);
      }
      var code := CleanResponse(update(i, sheetName), PythonMarkers);
      var execResult := ExecuteSnippet(info.df, code, map[], exec);
      if execResult.Executed? {
        if execResult.result.Frame? {
          sheets := sheets[sheetName := info.(df := execResult.result.table)];
          processed := processed + [sheetName];
        }
      } else {
        errors := errors + ["Error in " + sheetName + ": " + execResult.error];
      }
    }
    assert toUpdate[..|toUpdate|] == toUpdate;
    r := Ok(UpdateState(sheets, processed, errors));
  }

  /**
   * The records the update loop keeps: `sheets_processed` and `errors` only
   * grow, each selected name adds at most one entry, and every name recorded
   * was both selected and loaded.
   */
  lemma {:induction false} UpdateRunRecords(st: UpdateState, toUpdate: seq<string>, update: (nat, string) -> string,
                                            exec: (string, Namespace) -> RunOutcome)
    ensures var r := UpdateRun(st, toUpdate, update, exec);
      && |st.processed| <= |r.processed| && r.processed[..|st.processed|] == st.processed
      && |st.errors| <= |r.errors| && r.errors[..|st.errors|] == st.errors
      && (|r.processed| - |st.processed|) + (|r.errors| - |st.errors|) <= |toUpdate|
      && (forall i :: |st.processed| <= i < |r.processed| ==> r.processed[i] in toUpdate && r.processed[i] in st.sheets)
  {
    if toUpdate != [] {
      var k := |toUpdate| - 1;
      var init := toUpdate[..k];
      var name := toUpdate[k];
      UpdateRunRecords(st, init, update, exec);
      var mid := UpdateRun(st, init, update, exec);
      var r := UpdateStep(mid, k, name, update, exec);
      UpdateStepFacts(mid, k, name, update, exec);
      assert r == UpdateRun(st, toUpdate, update, exec);
      assert r.processed[..|mid.processed|] == mid.processed;
      assert r.errors[..|mid.errors|] == mid.errors;
      assert r.processed[..|st.processed|] == mid.processed[..|st.processed|];
      assert r.errors[..|st.errors|] == mid.errors[..|st.errors|];
      forall i | |st.processed| <= i < |r.processed|
        ensures r.processed[i] in toUpdate && r.processed[i] in st.sheets
      {
        if i < |mid.processed| {
          assert r.processed[i] == mid.processed[i];
          assert mid.processed[i] in init;
        } else {
          assert r.processed[i] == name;
        }
      }
    }
  }

  /**
   * The sheets the update loop leaves: a sheet not selected is untouched, and
   * every sheet keeps the header and preview it was loaded with.
   */
  lemma {:induction false} UpdateRunSheets(st: UpdateState, toUpdate: seq<string>, update: (nat, string) -> string,
                                           exec: (string, Namespace) -> RunOutcome)
    ensures var r := UpdateRun(st, toUpdate, update, exec);
      && (forall n :: n in st.sheets && n !in toUpdate ==> r.sheets[n] == st.sheets[n])
      && (forall n :: n in st.sheets ==> r.sheets[n].columns == st.sheets[n].columns
                                         && r.sheets[n].preview == st.sheets[n].preview)
  {
    if toUpdate != [] {
      var k := |toUpdate| - 1;
      var init := toUpdate[..k];
      UpdateRunSheets(st, init, update, exec);
      UpdateStepFacts(UpdateRun(st, init, update, exec), k, toUpdate[k], update, exec);
      assert forall x :: x in init ==> x in toUpdate;
    }
  }

  /** A sheet whose table the update loop changed is one it recorded as processed. */
  lemma {:induction false} UpdateRunChangedRecorded(st: UpdateState, toUpdate: seq<string>,
                                                    update: (nat, string) -> string,
                                                    exec: (string, Namespace) -> RunOutcome)
    ensures var r := UpdateRun(st, toUpdate, update, exec);
      && |st.processed| <= |r.processed|
      && forall n :: n in st.sheets && r.sheets[n] != st.sheets[n] ==> n in r.processed[|st.processed|..]
  {
    UpdateRunRecords(st, toUpdate, update, exec);
    if toUpdate != [] {
      var k := |toUpdate| - 1;
      var init := toUpdate[..k];
      var name := toUpdate[k];
      UpdateRunChangedRecorded(st, init, update, exec);
      UpdateRunRecords(st, init, update, exec);
      var mid := UpdateRun(st, init, update, exec);
      var r := UpdateStep(mid, k, name, update, exec);
      UpdateStepFacts(mid, k, name, update, exec);
      assert r == UpdateRun(st, toUpdate, update, exec);
      forall n | n in st.sheets && r.sheets[n] != st.sheets[n]
        ensures n in r.processed[|st.processed|..]
      {
        if r.sheets[n] != mid.sheets[n] {
          assert r.processed == mid.processed + [name];
          assert n == name;
          assert r.processed[|r.processed| - 1] == name;
        } else {
          assert n in mid.processed[|st.processed|..];
          var j :| |st.processed| <= j < |mid.processed| && mid.processed[j] == n;
          assert r.processed[j] == n by {
            if r.processed != mid.processed {
              assert r.processed == mid.processed + [name];
            }
          }
        }
      }
    }
  }

  /** What the pass over `toUpdate[j]` ran: its snippet, on the sheet as the earlier passes left it. */
  function PassOutcome(st: UpdateState, toUpdate: seq<string>, j: nat, update: (nat, string) -> string,
                       exec: (string, Namespace) -> RunOutcome): ExecResult
    requires j < |toUpdate| && toUpdate[j] in st.sheets
  {
    ExecuteSnippet(UpdateRun(st, toUpdate[..j], update, exec).sheets[toUpdate[j]].df,
                   Cleaned(update(j, toUpdate[j]), PythonMarkers), map[], exec)
  }

  /** The pass over `toUpdate[j]`, a loaded sheet, ran and left a DataFrame in `result`. */
  predicate PassLeftFrame(st: UpdateState, toUpdate: seq<string>, j: nat, update: (nat, string) -> string,
                          exec: (string, Namespace) -> RunOutcome)
  {
    && j < |toUpdate| && toUpdate[j] in st.sheets
    && PassOutcome(st, toUpdate, j, update, exec).Executed?
    && PassOutcome(st, toUpdate, j, update, exec).result.Frame?
  }

  /** The last pass either takes the DataFrame its snippet left for sheet `n`, or leaves `n` as it was. */
  lemma LastPass(st: UpdateState, toUpdate: seq<string>, update: (nat, string) -> string,
                 exec: (string, Namespace) -> RunOutcome, n: string)
    requires toUpdate != [] && n in st.sheets
    ensures var k := |toUpdate| - 1;
      var r := UpdateRun(st, toUpdate, update, exec);
      var mid := UpdateRun(st, toUpdate[..k], update, exec);
      && (toUpdate[k] == n && PassLeftFrame(st, toUpdate, k, update, exec)
          ==> r.sheets[n].df == PassOutcome(st, toUpdate, k, update, exec).result.table)
      && (!(toUpdate[k] == n && PassLeftFrame(st, toUpdate, k, update, exec)) ==> r.sheets[n] == mid.sheets[n])
  {
    var k := |toUpdate| - 1;
    var mid := UpdateRun(st, toUpdate[..k], update, exec);
    UpdateStepFacts(mid, k, toUpdate[k], update, exec);
  }

  /** A pass is the same whether the loop is seen whole or cut after it. */
  lemma PassInPrefix(st: UpdateState, toUpdate: seq<string>, update: (nat, string) -> string,
                     exec: (string, Namespace) -> RunOutcome, j: nat, i: nat)
    requires j < i <= |toUpdate| && toUpdate[j] in st.sheets
    ensures PassOutcome(st, toUpdate[..i], j, update, exec) == PassOutcome(st, toUpdate, j, update, exec)
    ensures PassLeftFrame(st, toUpdate[..i], j, update, exec) == PassLeftFrame(st, toUpdate, j, update, exec)
  {
    assert toUpdate[..i][..j] == toUpdate[..j];
  }

  /**
   * A sheet's table after the loop: the DataFrame left by the last pass over
   * it that left one, or the table it was loaded with when no pass did.
   */
  lemma {:induction false} UpdateRunFinalTable(st: UpdateState, toUpdate: seq<string>, update: (nat, string) -> string,
                                               exec: (string, Namespace) -> RunOutcome, n: string)
    requires n in st.sheets
    ensures var r := UpdateRun(st, toUpdate, update, exec);
      && ((forall j :: 0 <= j < |toUpdate| && toUpdate[j] == n ==> !PassLeftFrame(st, toUpdate, j, update, exec))
          ==> r.sheets[n] == st.sheets[n])
      && (forall j :: 0 <= j < |toUpdate| && toUpdate[j] == n && PassLeftFrame(st, toUpdate, j, update, exec)
                      && (forall m :: j < m < |toUpdate| && toUpdate[m] == n ==> !PassLeftFrame(st, toUpdate, m, update, exec))
            ==> r.sheets[n].df == PassOutcome(st, toUpdate, j, update, exec).result.table)
  {
    if forall j :: 0 <= j < |toUpdate| && toUpdate[j] == n ==> !PassLeftFrame(st, toUpdate, j, update, exec) {
      NoFramePassKeepsSheet(st, toUpdate, update, exec, n);
    }
    forall j | 0 <= j < |toUpdate| && toUpdate[j] == n && PassLeftFrame(st, toUpdate, j, update, exec)
               && (forall m :: j < m < |toUpdate| && toUpdate[m] == n ==> !PassLeftFrame(st, toUpdate, m, update, exec))
      ensures UpdateRun(st, toUpdate, update, exec).sheets[n].df == PassOutcome(st, toUpdate, j, update, exec).result.table
    {
      LastFramePassWins(st, toUpdate, update, exec, n, j);
    }
  }

  /** A sheet no pass left a DataFrame for keeps the table it was loaded with. */
  lemma {:induction false} NoFramePassKeepsSheet(st: UpdateState, toUpdate: seq<string>, update: (nat, string) -> string,
                                                 exec: (string, Namespace) -> RunOutcome, n: string)
    requires n in st.sheets
    requires forall j :: 0 <= j < |toUpdate| && toUpdate[j] == n ==> !PassLeftFrame(st, toUpdate, j, update, exec)
    ensures UpdateRun(st, toUpdate, update, exec).sheets[n] == st.sheets[n]
  {
    if toUpdate != [] {
      var k := |toUpdate| - 1;
      var init := toUpdate[..k];
      forall j | 0 <= j < k && init[j] == n
        ensures !PassLeftFrame(st, init, j, update, exec)
      {
        PassInPrefix(st, toUpdate, update, exec, j, k);
      }
      NoFramePassKeepsSheet(st, init, update, exec, n);
      LastPass(st, toUpdate, update, exec, n);
    }
  }

  /** The last pass that left a DataFrame for a sheet decides its table. */
  lemma {:induction false} LastFramePassWins(st: UpdateState, toUpdate: seq<string>, update: (nat, string) -> string,
                                             exec: (string, Namespace) -> RunOutcome, n: string, j: nat)
    requires n in st.sheets
    requires j < |toUpdate| && toUpdate[j] == n && PassLeftFrame(st, toUpdate, j, update, exec)
    requires forall m :: j < m < |toUpdate| && toUpdate[m] == n ==> !PassLeftFrame(st, toUpdate, m, update, exec)
    ensures UpdateRun(st, toUpdate, update, exec).sheets[n].df == PassOutcome(st, toUpdate, j, update, exec).result.table
  {
    var k := |toUpdate| - 1;
    LastPass(st, toUpdate, update, exec, n);
    if j < k {
      var init := toUpdate[..k];
      PassInPrefix(st, toUpdate, update, exec, j, k);
      forall m | j < m < k && init[m] == n
        ensures !PassLeftFrame(st, init, m, update, exec)
      {
        PassInPrefix(st, toUpdate, update, exec, m, k);
      }
      LastFramePassWins(st, init, update, exec, n, j);
    }
  }

  /** Selected names that are not loaded sheets are skipped without trace. */
  lemma {:induction false} UnknownNamesSkipped(st: UpdateState, toUpdate: seq<string>, update: (nat, string) -> string,
                                               exec: (string, Namespace) -> RunOutcome)
    requires forall i :: 0 <= i < |toUpdate| ==> toUpdate[i] !in st.sheets
    ensures UpdateRun(st, toUpdate, update, exec) == st
  {
    if toUpdate != [] {
      UnknownNamesSkipped(st, toUpdate[..|toUpdate| - 1], update, exec);
    }
  }

  // ---------------------------------------------------------------------------
  // Querying

  /** A result `json.dumps(result, indent=2, default=str)` raises for: an object it cannot encode. */
  predicate Unprintable(v: Value, env: Environment)
    ensures Unprintable(v, env) ==> !v.Frame? && !v.Records? && !v.Str? && !v.NoneValue?
  {
    v.Opaque? && env.unserialisable(v.id)
  }

  /**
   * The query branch: the first sheet, unless there is none or its name is
   * empty. Building the prompt raises when its preview cannot be written; a
   * result comes back with no error, a raised error alone; printing a result
   * `json.dumps` cannot encode raises before it is stored.
   */
  function QuerySheet(sheets: map<string, SheetInfo>, sheetNames: seq<string>, responses: Responses,
                      env: Environment): (r: Result<(Option<Value>, seq<string>), Fatal>)
    requires forall i :: 0 <= i < |sheetNames| ==> sheetNames[i] in sheets
    ensures r.Ok? ==> r.value.0.None? || |r.value.1| == 0
    ensures r.Ok? ==> |r.value.1| <= 1
    ensures r.Err? ==> r.error == QueryResultNotSerialisable || r.error == PromptNotSerialisable
    ensures r.Err? ==> sheetNames != [] && sheetNames[0] != []
    ensures sheetNames != [] && sheetNames[0] != [] && !Encodable(sheets[sheetNames[0]].preview)
            ==> r == Err(PromptNotSerialisable)
  {
    if sheetNames != [] && sheetNames[0] != [] then
      if !Encodable(sheets[sheetNames[0]].preview) then Err(PromptNotSerialisable)
      else
        var code := Cleaned(responses.query, PythonMarkers);
        match ExecuteSnippet(sheets[sheetNames[0]].df, code, map[], env.exec)
        case Executed(result, _, _) =>
          if Unprintable(result, env) then Err(QueryResultNotSerialisable) else Ok((Some(result), []))
        case ExecFailed(error, _) => Ok((None, [error]))
    else Ok((None, []))
  }

  // ---------------------------------------------------------------------------
  // process_query_all_sheets

  /** The state after the intent's branch, before saving. */
  datatype Handled = Handled(
    sheets: map<string, SheetInfo>,
    processed: seq<string>,
    newSheets: seq<(string, Table)>,
    errors: seq<string>,
    queryResult: Option<Value>)

  function HandleIntent(wb: Workbook, intent: Intent, responses: Responses, env: Environment): (r: Result<Handled, Fatal>)
    requires Loaded(wb)
    ensures r.Ok? ==> r.value.sheets.Keys == wb.sheets.Keys
  {
    if intent.intent == "create_new_sheet" then
      match CreateSheet(responses, env)
      case Err(f) => Err(f)
      case Ok(created) => Ok(Handled(wb.sheets, [], created.0, created.1, None))
    else if intent.intent == "update_existing" then
      match SheetsToUpdate(intent.targetSheets, wb.sheetNames)
      case Err(f) => Err(f)
      case Ok(toUpdate) =>
        match UpdateOutcome(wb.sheets, toUpdate, responses.update, env.exec)
        case Err(f) => Err(f)
        case Ok(st) => Ok(Handled(st.sheets, st.processed, [], st.errors, None))
    else
      match QuerySheet(wb.sheets, wb.sheetNames, responses, env)
      case Err(f) => Err(f)
      case Ok(queried) => Ok(Handled(wb.sheets, [], [], queried.1, queried.0))
  }

  /** The save at the end: only after an update or a creation; a failed write adds an error. */
  function Finish(path: string, sheetNames: seq<string>, intentName: string, h: Handled, env: Environment): (r: QueryResults)
    requires forall i :: 0 <= i < |sheetNames| ==> sheetNames[i] in h.sheets
    ensures && r.intent == intentName && r.sheetsProcessed == h.processed
            && r.newSheets == h.newSheets && r.queryResult == h.queryResult
    ensures r.saved.Some? <==> (h.processed != [] || h.newSheets != []) && env.saveError.None?
    ensures r.saved.Some? ==> && r.errors == h.errors
                              && r.saved.value.sheets == Written(h.sheets, sheetNames) + h.newSheets
                              && Split(r.saved.value.path).0 == Split(path).0
                              && Split(r.saved.value.path).1 == OutputName(Split(path).1, Stamp(env.saveClock))
                              && SplitExt(r.saved.value.path).1 == ".xlsx"
    ensures (h.processed != [] || h.newSheets != []) && env.saveError.Some?
            ==> r.errors == h.errors + ["Failed to save file: " + env.saveError.value]
    ensures h.processed == [] && h.newSheets == [] ==> r.errors == h.errors
  {
    if h.processed != [] || h.newSheets != [] then
      match SaveUpdatedExcel(path, Written(h.sheets, sheetNames), h.newSheets, env.saveClock, env.saveError)
      case Ok(saved) => QueryResults(intentName, h.processed, h.newSheets, h.errors, h.queryResult, Some(saved))
      case Err(e) =>
        QueryResults(intentName, h.processed, h.newSheets, h.errors + ["Failed to save file: " + e], h.queryResult, None)
    else QueryResults(intentName, h.processed, h.newSheets, h.errors, h.queryResult, None)
  }

  /** What `process_query_all_sheets(path, user_query)` returns or raises. */
  function Processed(path: string, userQuery: string, responses: Responses, env: Environment): (r: Result<QueryResults, Fatal>)
  {
    match LoadedWorkbook(path, env.disk)
    case Err(e) => Err(LoadFailed(e))
    case Ok(wb) =>
      var intent := ParsedIntent(userQuery, responses.intent, responses.parseIntent);
      match HandleIntent(wb, intent, responses, env)
      case Err(f) => Err(f)
      case Ok(h) => Ok(Finish(path, wb.sheetNames, intent.intent, h, env))
  }

  /** The create branch, step by step. */
  method CreateNewSheet(responses: Responses, env: Environment)
    returns (r: Result<(seq<(string, Table)>, seq<string>), Fatal>)
    ensures r == CreateSheet(responses, env)
  {
    var code := CleanResponse(responses.newSheet, PythonMarkers);
    var execResult := ExecuteSnippet(EmptyTable, code, map[], env.exec);
    if execResult.Executed? && execResult.newDf != NoneValue {
      if !execResult.newDf.Frame? {
        return Err(NewDfNotFrame);
      }
      var newSheetName := NewSheetName(execResult.newSheetName, env.createClock);
      r := Ok(([(newSheetName, execResult.newDf.table)], []));
    } else {
      var reason := if execResult.ExecFailed? then execResult.error else "Unknown error";
      r := Ok(([], ["Failed to create new sheet: " + reason]));
    }
  }

  /** The query branch, step by step. */
  method QueryFirstSheet(sheets: map<string, SheetInfo>, sheetNames: seq<string>, responses: Responses,
                         env: Environment) returns (r: Result<(Option<Value>, seq<string>), Fatal>)
    requires forall i :: 0 <= i < |sheetNames| ==> sheetNames[i] in sheets
    ensures r == QuerySheet(sheets, sheetNames, responses, env)
  {
    var queryResult: Option<Value> := None;
    var errors: seq<string> := [];
    if sheetNames != [] && sheetNames[0] != [] {
      if !Encodable(sheets[sheetNames[0]].preview) {
        return Err(PromptNotSerialisable);
      }
      var code := CleanResponse(responses.query, PythonMarkers);
      var execResult := ExecuteSnippet(sheets[sheetNames[0]].df, code, map[], env.exec);
      if execResult.Executed? {
        var result := execResult.result;
        if Unprintable(result, env) {
          return Err(QueryResultNotSerialisable);
        }
        queryResult := Some(result);
      } else {
        errors := [execResult.error];
      }
    }
    r := Ok((queryResult, errors));
  }

  /** The save at the end of `process_query_all_sheets`, step by step. */
  method SaveIfChanged(path: string, sheetNames: seq<string>, intentName: string, h: Handled, env: Environment)
    returns (r: QueryResults)
    requires forall i :: 0 <= i < |sheetNames| ==> sheetNames[i] in h.sheets
    ensures r == Finish(path, sheetNames, intentName, h, env)
  {
    var errors := h.errors;
    var saved: Option<SavedWorkbook> := None;
    if h.processed != [] || h.newSheets != [] {
      var updatedSheets := Written(h.sheets, sheetNames);
      var outcome := SaveUpdatedExcel(path, updatedSheets, h.newSheets, env.saveClock, env.saveError);
      if outcome.Ok? {
        saved := Some(outcome.value);
      } else {
        errors := errors + ["Failed to save file: " + outcome.error];
      }
    }
    r := QueryResults(intentName, h.processed, h.newSheets, errors, h.queryResult, saved);
  }

  /** `process_query_all_sheets`, step by step on the `results` record. */
  method ProcessQueryAllSheets(path: string, userQuery: string, responses: Responses, env: Environment)
    returns (r: Result<QueryResults, Fatal>)
    ensures r == Processed(path, userQuery, responses, env)
  {
    var allData := LoadAllSheets(path, env.disk);
    if allData.Err? {
      return Err(LoadFailed(allData.error));
    }
    var wb := allData.value;
    var intentInfo := DetectQueryIntent(userQuery, responses.intent, responses.parseIntent);

    var h: Handled;
    if intentInfo.intent == "create_new_sheet" {
      var created := CreateNewSheet(responses, env);
      if created.Err? {
        return Err(created.error);
      }
      h := Handled(wb.sheets, [], created.value.0, created.value.1, None);
    } else if intentInfo.intent == "update_existing" {
      var selection := SheetsToUpdate(intentInfo.targetSheets, wb.sheetNames);
      if selection.Err? {
        return Err(selection.error);
      }
      var updated := UpdateSheets(wb.sheets, selection.value, responses.update, env.exec);
      if updated.Err? {
        return Err(updated.error);
      }
      h := Handled(updated.value.sheets, updated.value.processed, [], updated.value.errors, None);
    } else {
      var queried := QueryFirstSheet(wb.sheets, wb.sheetNames, responses, env);
      if queried.Err? {
        return Err(queried.error);
      }
      h := Handled(wb.sheets, [], [], queried.value.1, queried.value.0);
    }
    assert HandleIntent(wb, intentInfo, responses, env) == Ok(h);
    var results := SaveIfChanged(path, wb.sheetNames, intentInfo.intent, h, env);
    r := Ok(results);
  }
}
