/**
 * What `process_query_all_sheets` promises as a whole: load failures and a
 * null `target_sheets` are raised; each intent touches only its own part of
 * the `results` record; the update loop records exactly the loaded sheets
 * it replaced; and a new file is written only after an update or a creation,
 * beside the input, with the loaded sheets first and the created one last.
 */
module PipelineFacts {
  import opened Common
  import opened Text
  import opened Tables
  import opened Paths
  import opened AgentCodegen
  import opened AgentLoader
  import opened AgentSnippet
  import opened AgentPipeline

  // ---------------------------------------------------------------------------
  // The update loop over all its inputs

  /** The selected names that are loaded sheets, in selection order. */
  function Known(names: seq<string>, sheets: map<string, SheetInfo>): (r: seq<string>)
    ensures |r| <= |names|
    ensures forall i :: 0 <= i < |r| ==> r[i] in sheets && r[i] in names
  {
    if names == [] then []
    else
      var init := Known(names[..|names| - 1], sheets);
      if names[|names| - 1] in sheets then init + [names[|names| - 1]] else init
  }

  /** Every snippet runs and leaves a DataFrame in `result`. */
  ghost predicate AlwaysFrame(exec: (string, Namespace) -> RunOutcome) {
    forall code, ns :: exec(code, ns).Completed? && Lookup(exec(code, ns).locals, "result").Frame?
  }

  /** Every snippet raises. */
  ghost predicate AlwaysRaises(exec: (string, Namespace) -> RunOutcome) {
    forall code, ns :: exec(code, ns).Raised?
  }

  /** When every snippet succeeds with a table, every selected loaded sheet is recorded, in order, and no error. */
  lemma {:induction false} EverySuccessRecorded(st: UpdateState, toUpdate: seq<string>,
                                                update: (nat, string) -> string,
                                                exec: (string, Namespace) -> RunOutcome)
    requires AlwaysFrame(exec)
    ensures UpdateRun(st, toUpdate, update, exec).processed == st.processed + Known(toUpdate, st.sheets)
    ensures UpdateRun(st, toUpdate, update, exec).errors == st.errors
  {
    if toUpdate != [] {
      var k := |toUpdate| - 1;
      var init := toUpdate[..k];
      var name := toUpdate[k];
      EverySuccessRecorded(st, init, update, exec);
      var mid := UpdateRun(st, init, update, exec);
      assert mid.sheets.Keys == st.sheets.Keys;
      if name in mid.sheets {
        var code := Cleaned(update(k, name), PythonMarkers);
        var ns := SnippetNamespace(mid.sheets[name].df, map[]);
        assert exec(code, ns).Completed? && Lookup(exec(code, ns).locals, "result").Frame?;
        assert Known(toUpdate, st.sheets) == Known(init, st.sheets) + [name];
      } else {
        assert Known(toUpdate, st.sheets) == Known(init, st.sheets);
      }
    }
  }

  /** When every snippet raises, no sheet changes and each selected loaded sheet adds one error. */
  lemma {:induction false} EveryFailureReported(st: UpdateState, toUpdate: seq<string>,
                                                update: (nat, string) -> string,
                                                exec: (string, Namespace) -> RunOutcome)
    requires AlwaysRaises(exec)
    ensures UpdateRun(st, toUpdate, update, exec).sheets == st.sheets
    ensures UpdateRun(st, toUpdate, update, exec).processed == st.processed
    ensures |UpdateRun(st, toUpdate, update, exec).errors| == |st.errors| + |Known(toUpdate, st.sheets)|
  {
    if toUpdate != [] {
      var k := |toUpdate| - 1;
      var init := toUpdate[..k];
      var name := toUpdate[k];
      EveryFailureReported(st, init, update, exec);
      var mid := UpdateRun(st, init, update, exec);
      if name in mid.sheets {
        var code := Cleaned(update(k, name), PythonMarkers);
        var ns := SnippetNamespace(mid.sheets[name].df, map[]);
        assert exec(code, ns).Raised?;
        assert Known(toUpdate, st.sheets) == Known(init, st.sheets) + [name];
      } else {
        assert Known(toUpdate, st.sheets) == Known(init, st.sheets);
      }
    }
  }

  // ---------------------------------------------------------------------------
  // process_query_all_sheets

  /** A load failure is raised unchanged, before the model is asked anything. */
  lemma LoadFailureRaised(path: string, userQuery: string, responses: Responses, env: Environment)
    requires LoadedWorkbook(path, env.disk).Err?
    ensures Processed(path, userQuery, responses, env) == Err(LoadFailed(LoadedWorkbook(path, env.disk).error))
    ensures path == [] ==> Processed(path, userQuery, responses, env) == Err(LoadFailed(ValueError(EmptyPathMessage)))
  {
  }

  /** A successful run is the intent's branch on the loaded workbook followed by the save. */
  lemma ProcessedSteps(path: string, userQuery: string, responses: Responses, env: Environment)
    requires Processed(path, userQuery, responses, env).Ok?
    ensures LoadedWorkbook(path, env.disk).Ok?
    ensures var wb := LoadedWorkbook(path, env.disk).value;
            var intent := ParsedIntent(userQuery, responses.intent, responses.parseIntent);
            && Loaded(wb)
            && HandleIntent(wb, intent, responses, env).Ok?
            && Processed(path, userQuery, responses, env).value
               == Finish(path, wb.sheetNames, intent.intent, HandleIntent(wb, intent, responses, env).value, env)
  {
  }

  /** An update whose `target_sheets` is null raises: `"all" in None` is a type error. */
  lemma NullTargetsRaise(path: string, userQuery: string, responses: Responses, env: Environment)
    requires LoadedWorkbook(path, env.disk).Ok?
    requires ParsedIntent(userQuery, responses.intent, responses.parseIntent).intent == "update_existing"
    requires ParsedIntent(userQuery, responses.intent, responses.parseIntent).targetSheets.TargetsNull?
    ensures Processed(path, userQuery, responses, env) == Err(TargetsNotIterable)
  {
  }

  /** An update whose targets name no loaded sheet records nothing and saves nothing. */
  lemma UnknownTargetsIgnored(path: string, userQuery: string, responses: Responses, env: Environment)
    requires LoadedWorkbook(path, env.disk).Ok?
    requires var intent := ParsedIntent(userQuery, responses.intent, responses.parseIntent);
             && intent.intent == "update_existing" && intent.targetSheets.TargetList?
             && "all" !in intent.targetSheets.names
             && forall i :: 0 <= i < |intent.targetSheets.names|
                  ==> intent.targetSheets.names[i] !in LoadedWorkbook(path, env.disk).value.sheets
    ensures Processed(path, userQuery, responses, env).Ok?
    ensures Processed(path, userQuery, responses, env).value.sheetsProcessed == []
    ensures Processed(path, userQuery, responses, env).value.saved.None?
  {
    var intent := ParsedIntent(userQuery, responses.intent, responses.parseIntent);
    var wb := LoadedWorkbook(path, env.disk).value;
    var st := UpdateState(wb.sheets, [], []);
    UnknownNamesSkipped(st, intent.targetSheets.names, responses.update, env.exec);
    assert HandleIntent(wb, intent, responses, env) == Ok(Handled(wb.sheets, [], [], [], None));
  }

  /**
   * The record always carries the detected intent; only an update records
   * processed sheets, only a creation adds a sheet (one at most), and only a
   * query sets `query_result`.
   */
  lemma BranchesKeepApart(path: string, userQuery: string, responses: Responses, env: Environment)
    requires Processed(path, userQuery, responses, env).Ok?
    ensures var q := Processed(path, userQuery, responses, env).value;
            var intent := ParsedIntent(userQuery, responses.intent, responses.parseIntent);
            && q.intent == intent.intent
            && (q.sheetsProcessed != [] ==> intent.intent == "update_existing")
            && (q.newSheets != [] ==> intent.intent == "create_new_sheet")
            && |q.newSheets| <= 1
            && (q.queryResult.Some? ==> intent.intent != "update_existing" && intent.intent != "create_new_sheet")
  {
    ProcessedSteps(path, userQuery, responses, env);
    var wb := LoadedWorkbook(path, env.disk).value;
    var intent := ParsedIntent(userQuery, responses.intent, responses.parseIntent);
    HandledBranches(wb, intent, responses, env);
  }

  /** Each branch of the intent fills only its own part of the state it hands to the save. */
  lemma HandledBranches(wb: Workbook, intent: Intent, responses: Responses, env: Environment)
    requires Loaded(wb) && HandleIntent(wb, intent, responses, env).Ok?
    ensures var h := HandleIntent(wb, intent, responses, env).value;
            && (h.processed != [] ==> intent.intent == "update_existing")
            && (h.newSheets != [] ==> intent.intent == "create_new_sheet")
            && |h.newSheets| <= 1
            && (h.queryResult.Some? ==> intent.intent != "update_existing" && intent.intent != "create_new_sheet")
  {
    var h := HandleIntent(wb, intent, responses, env).value;
    if intent.intent == "create_new_sheet" {
      assert h.processed == [] && h.queryResult.None?;
    } else if intent.intent == "update_existing" {
      assert h.newSheets == [] && h.queryResult.None?;
    } else {
      assert h.processed == [] && h.newSheets == [];
    }
  }

  /**
   * A model answer that cannot be read is handled as a query: nothing is
   * updated, created or saved, and only building the query prompt or
   * printing the result can raise.
   */
  lemma UnreadableIntentQueries(path: string, userQuery: string, responses: Responses, env: Environment)
    requires LoadedWorkbook(path, env.disk).Ok?
    requires responses.intent.None?
    ensures Processed(path, userQuery, responses, env).Err?
            ==> Processed(path, userQuery, responses, env).error in {QueryResultNotSerialisable, PromptNotSerialisable}
    ensures Processed(path, userQuery, responses, env).Ok? ==>
            var q := Processed(path, userQuery, responses, env).value;
            q.intent == "query_data" && q.sheetsProcessed == [] && q.newSheets == [] && q.saved.None?
  {
    var wb := LoadedWorkbook(path, env.disk).value;
    var h := HandleIntent(wb, FallbackIntent(userQuery), responses, env);
    assert h.Ok? ==> h.value.processed == [] && h.value.newSheets == [];
  }

  /**
   * The query branch works on the first sheet when its name is not empty:
   * a preview `json.dumps` cannot write raises before the snippet runs;
   * otherwise a result that came back is reported with no error, unless
   * `json.dumps` cannot print it, which raises; a raised error is reported
   * alone; nothing is saved.
   */
  lemma QueryBranch(path: string, userQuery: string, responses: Responses, env: Environment)
    requires LoadedWorkbook(path, env.disk).Ok?
    requires var intent := ParsedIntent(userQuery, responses.intent, responses.parseIntent).intent;
             intent != "create_new_sheet" && intent != "update_existing"
    ensures var wb := LoadedWorkbook(path, env.disk).value;
            var p := Processed(path, userQuery, responses, env);
            && (wb.sheetNames == [] || wb.sheetNames[0] == [] ==>
                  p.Ok? && p.value.queryResult.None? && p.value.errors == [])
            && (wb.sheetNames != [] && wb.sheetNames[0] != [] && !Encodable(wb.sheets[wb.sheetNames[0]].preview)
                ==> p == Err(PromptNotSerialisable))
            && (wb.sheetNames != [] && wb.sheetNames[0] != [] && Encodable(wb.sheets[wb.sheetNames[0]].preview) ==>
                  var e := ExecuteSnippet(wb.sheets[wb.sheetNames[0]].df, Cleaned(responses.query, PythonMarkers), map[], env.exec);
                  && (e.Executed? && Unprintable(e.result, env) ==> p == Err(QueryResultNotSerialisable))
                  && (e.Executed? && !Unprintable(e.result, env)
                      ==> p.Ok? && p.value.queryResult == Some(e.result) && p.value.errors == [])
                  && (e.ExecFailed? ==> p.Ok? && p.value.queryResult.None? && p.value.errors == [e.error]))
    ensures Processed(path, userQuery, responses, env).Ok? ==>
            var q := Processed(path, userQuery, responses, env).value;
            q.sheetsProcessed == [] && q.newSheets == [] && q.saved.None?
  {
  }

  /**
   * The create branch: a snippet that ran and left a DataFrame in `new_df`
   * gives exactly one new sheet, named by the snippet or by the clock;
   * otherwise one error and no sheet, and nothing to save.
   */
  lemma CreateBranch(path: string, userQuery: string, responses: Responses, env: Environment)
    requires Processed(path, userQuery, responses, env).Ok?
    requires ParsedIntent(userQuery, responses.intent, responses.parseIntent).intent == "create_new_sheet"
    ensures var q := Processed(path, userQuery, responses, env).value;
            var e := ExecuteSnippet(EmptyTable, Cleaned(responses.newSheet, PythonMarkers), map[], env.exec);
            && q.sheetsProcessed == [] && q.queryResult.None?
            && (e.Executed? && e.newDf.Frame?
                ==> q.newSheets == [(NewSheetName(e.newSheetName, env.createClock), e.newDf.table)])
            && (!(e.Executed? && e.newDf.Frame?)
                ==> q.newSheets == [] && q.saved.None?
                    && q.errors == ["Failed to create new sheet: " + (if e.ExecFailed? then e.error else "Unknown error")])
  {
  }

  /**
   * An update raises when a selected name is a loaded sheet whose preview
   * `json.dumps` cannot write into the prompt, whatever the other passes did.
   */
  lemma UpdatePromptRaises(path: string, userQuery: string, responses: Responses, env: Environment, i: nat)
    requires LoadedWorkbook(path, env.disk).Ok?
    requires var intent := ParsedIntent(userQuery, responses.intent, responses.parseIntent);
             var wb := LoadedWorkbook(path, env.disk).value;
             && intent.intent == "update_existing" && !intent.targetSheets.TargetsNull?
             && i < |SheetsToUpdate(intent.targetSheets, wb.sheetNames).value|
             && PromptFails(wb.sheets, SheetsToUpdate(intent.targetSheets, wb.sheetNames).value[i])
    ensures Processed(path, userQuery, responses, env) == Err(PromptNotSerialisable)
  {
  }

  /**
   * The update branch records only selected names that are loaded sheets,
   * at most one record (processed or error) per selected name, and creates
   * no sheet; it completed only if every selected loaded sheet's preview
   * could be written into its prompt.
   */
  lemma UpdateBranch(path: string, userQuery: string, responses: Responses, env: Environment)
    requires Processed(path, userQuery, responses, env).Ok?
    requires ParsedIntent(userQuery, responses.intent, responses.parseIntent).intent == "update_existing"
    ensures var q := Processed(path, userQuery, responses, env).value;
            var intent := ParsedIntent(userQuery, responses.intent, responses.parseIntent);
            var wb := LoadedWorkbook(path, env.disk).value;
            var selected := SheetsToUpdate(intent.targetSheets, wb.sheetNames);
            && selected.Ok?
            && q.newSheets == [] && q.queryResult.None?
            && |q.sheetsProcessed| <= |selected.value|
            && (forall i :: 0 <= i < |q.sheetsProcessed| ==>
                  q.sheetsProcessed[i] in selected.value && q.sheetsProcessed[i] in wb.sheetNames)
            && (forall i :: 0 <= i < |selected.value| ==> !PromptFails(wb.sheets, selected.value[i]))
  {
    var intent := ParsedIntent(userQuery, responses.intent, responses.parseIntent);
    var wb := LoadedWorkbook(path, env.disk).value;
    var selected := SheetsToUpdate(intent.targetSheets, wb.sheetNames);
    UpdateRunRecords(UpdateState(wb.sheets, [], []), selected.value, responses.update, env.exec);
  }

  /** An update naming its sheets (without "all") records only loaded sheets it named. */
  lemma NamedTargetsRecorded(path: string, userQuery: string, responses: Responses, env: Environment)
    requires Processed(path, userQuery, responses, env).Ok?
    requires var intent := ParsedIntent(userQuery, responses.intent, responses.parseIntent);
             && intent.intent == "update_existing" && intent.targetSheets.TargetList?
             && "all" !in intent.targetSheets.names
    ensures var q := Processed(path, userQuery, responses, env).value;
            var names := ParsedIntent(userQuery, responses.intent, responses.parseIntent).targetSheets.names;
            var wb := LoadedWorkbook(path, env.disk).value;
            forall i :: 0 <= i < |q.sheetsProcessed| ==> q.sheetsProcessed[i] in names && q.sheetsProcessed[i] in wb.sheets
  {
    UpdateBranch(path, userQuery, responses, env);
  }

  /**
   * A file saved after an update naming its sheets (without "all") holds
   * every loaded sheet it did not name with the table it was loaded with.
   */
  lemma NamedTargetsOnly(path: string, userQuery: string, responses: Responses, env: Environment)
    requires Processed(path, userQuery, responses, env).Ok?
    requires Processed(path, userQuery, responses, env).value.saved.Some?
    requires var intent := ParsedIntent(userQuery, responses.intent, responses.parseIntent);
             && intent.intent == "update_existing" && intent.targetSheets.TargetList?
             && "all" !in intent.targetSheets.names
    ensures var q := Processed(path, userQuery, responses, env).value;
            var names := ParsedIntent(userQuery, responses.intent, responses.parseIntent).targetSheets.names;
            var wb := LoadedWorkbook(path, env.disk).value;
            forall i :: 0 <= i < |wb.sheetNames| && wb.sheetNames[i] !in names
              ==> q.saved.value.sheets[i] == (wb.sheetNames[i], wb.sheets[wb.sheetNames[i]].df)
  {
    var q := Processed(path, userQuery, responses, env).value;
    var names := ParsedIntent(userQuery, responses.intent, responses.parseIntent).targetSheets.names;
    NamedTargetsRecorded(path, userQuery, responses, env);
    SavedFile(path, userQuery, responses, env);
    assert forall n :: n in q.sheetsProcessed ==> n in names;
  }

  /**
   * What the update branch leaves for each loaded sheet: the DataFrame left
   * by the last pass over it that left one, or its table as loaded when no
   * pass did.
   */
  lemma UpdatedTables(wb: Workbook, intent: Intent, responses: Responses, env: Environment, n: string)
    requires Loaded(wb) && intent.intent == "update_existing" && HandleIntent(wb, intent, responses, env).Ok?
    requires n in wb.sheets
    ensures var h := HandleIntent(wb, intent, responses, env).value;
            var selected := SheetsToUpdate(intent.targetSheets, wb.sheetNames).value;
            var st := UpdateState(wb.sheets, [], []);
            && h.newSheets == []
            && ((forall j :: 0 <= j < |selected| && selected[j] == n
                   ==> !PassLeftFrame(st, selected, j, responses.update, env.exec))
                ==> h.sheets[n] == wb.sheets[n])
            && (forall j :: 0 <= j < |selected| && selected[j] == n
                              && PassLeftFrame(st, selected, j, responses.update, env.exec)
                              && (forall m :: j < m < |selected| && selected[m] == n
                                    ==> !PassLeftFrame(st, selected, m, responses.update, env.exec))
                  ==> h.sheets[n].df == PassOutcome(st, selected, j, responses.update, env.exec).result.table)
  {
    var selected := SheetsToUpdate(intent.targetSheets, wb.sheetNames).value;
    UpdateRunFinalTable(UpdateState(wb.sheets, [], []), selected, responses.update, env.exec, n);
  }

  /**
   * The save trigger: a file is written exactly when a sheet was updated or
   * created and the writer did not fail; a failed write is reported as the
   * last error.
   */
  lemma SaveTrigger(path: string, userQuery: string, responses: Responses, env: Environment)
    requires Processed(path, userQuery, responses, env).Ok?
    ensures var q := Processed(path, userQuery, responses, env).value;
            && (q.saved.Some? <==> (q.sheetsProcessed != [] || q.newSheets != []) && env.saveError.None?)
            && ((q.sheetsProcessed != [] || q.newSheets != []) && env.saveError.Some?
                ==> q.errors != [] && q.errors[|q.errors| - 1] == "Failed to save file: " + env.saveError.value)
  {
  }

  /**
   * The written file sits in the input's directory, is called
   * `{stem}_updated_{stamp}.xlsx`, and holds every loaded sheet in load order
   * (a sheet that was not recorded as processed with its table as loaded),
   * then the created sheet.
   */
  lemma SavedFile(path: string, userQuery: string, responses: Responses, env: Environment)
    requires Processed(path, userQuery, responses, env).Ok?
    requires Processed(path, userQuery, responses, env).value.saved.Some?
    ensures var q := Processed(path, userQuery, responses, env).value;
            var saved := q.saved.value;
            var wb := LoadedWorkbook(path, env.disk).value;
            && Split(saved.path).0 == Split(path).0
            && Split(saved.path).1 == OutputName(Split(path).1, Stamp(env.saveClock))
            && SplitExt(saved.path).1 == ".xlsx"
            && |saved.sheets| == |wb.sheetNames| + |q.newSheets|
            && saved.sheets[|wb.sheetNames|..] == q.newSheets
            && (forall i :: 0 <= i < |wb.sheetNames| ==> saved.sheets[i].0 == wb.sheetNames[i])
            && (forall i :: 0 <= i < |wb.sheetNames| && wb.sheetNames[i] !in q.sheetsProcessed
                  ==> saved.sheets[i].1 == wb.sheets[wb.sheetNames[i]].df)
  {
    ProcessedSteps(path, userQuery, responses, env);
    var wb := LoadedWorkbook(path, env.disk).value;
    var intent := ParsedIntent(userQuery, responses.intent, responses.parseIntent);
    var h := HandleIntent(wb, intent, responses, env).value;
    HandledSheets(wb, intent, responses, env);
    WrittenSheets(wb.sheets, h.sheets, h.processed, wb.sheetNames, h.newSheets);
  }

  /** A sheet the intent's branch changed is one it recorded as processed. */
  lemma HandledSheets(wb: Workbook, intent: Intent, responses: Responses, env: Environment)
    requires Loaded(wb) && HandleIntent(wb, intent, responses, env).Ok?
    ensures var h := HandleIntent(wb, intent, responses, env).value;
            forall n :: n in wb.sheets && h.sheets[n] != wb.sheets[n] ==> n in h.processed
  {
    if intent.intent == "update_existing" {
      var selected := SheetsToUpdate(intent.targetSheets, wb.sheetNames).value;
      UpdateRunChangedRecorded(UpdateState(wb.sheets, [], []), selected, responses.update, env.exec);
    }
  }

  /** The sheets the save writes: every loaded name in order with its table, then the new sheets. */
  lemma WrittenSheets(loaded: map<string, SheetInfo>, sheets: map<string, SheetInfo>, processed: seq<string>,
                      sheetNames: seq<string>, newSheets: seq<(string, Table)>)
    requires forall i :: 0 <= i < |sheetNames| ==> sheetNames[i] in loaded
    requires sheets.Keys == loaded.Keys
    requires forall n :: n in loaded && sheets[n] != loaded[n] ==> n in processed
    ensures var w := Written(sheets, sheetNames) + newSheets;
            && |w| == |sheetNames| + |newSheets|
            && w[|sheetNames|..] == newSheets
            && (forall i :: 0 <= i < |sheetNames| ==> w[i].0 == sheetNames[i])
            && (forall i :: 0 <= i < |sheetNames| && sheetNames[i] !in processed
                  ==> w[i].1 == loaded[sheetNames[i]].df)
  {
    var written := Written(sheets, sheetNames);
    var w := written + newSheets;
    assert w[|sheetNames|..] == newSheets;
    forall i | 0 <= i < |sheetNames|
      ensures w[i] == written[i]
    {
    }
  }
}
