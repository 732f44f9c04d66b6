/**
 * The agent's `execute_snippet`: a generated snippet runs on a namespace
 * holding a copy of the sheet, and the record it returns reads `result`,
 * `new_sheet_name` and `new_df` back out of that namespace.
 */
module AgentSnippet {
  import opened Tables

  /**
   * `{"ok": True, "result": ..., "new_sheet_name": ..., "new_df": ...}` or
   * `{"ok": False, "error": ..., "traceback": ...}`.
   */
  datatype ExecResult =
    | Executed(result: Value, newSheetName: Value, newDf: Value)
    | ExecFailed(error: string, traceback: string)

  /** The variables a snippet starts with: the sheet, `pd`, `find_column`, `datetime`, then the extras. */
  function SnippetNamespace(df: Table, extraVars: Namespace): (r: Namespace)
    ensures forall n :: n in extraVars ==> n in r && r[n] == extraVars[n]
    ensures "df" !in extraVars ==> Lookup(r, "df") == Frame(df)
  {
    map["df" := Frame(df), "pd" := Helper("pd"), "find_column" := Helper("find_column"),
        "datetime" := Helper("datetime")] + extraVars
  }

  /**
   * `execute_snippet(df, code, extra_vars)`, with `exec` standing for running
   * the dedented code on the namespace.
   */
  function ExecuteSnippet(df: Table, code: string, extraVars: Namespace,
                          exec: (string, Namespace) -> RunOutcome): (r: ExecResult)
    ensures r.ExecFailed? <==> exec(code, SnippetNamespace(df, extraVars)).Raised?
    ensures r.ExecFailed? ==> r.error == exec(code, SnippetNamespace(df, extraVars)).error
                              && r.traceback == exec(code, SnippetNamespace(df, extraVars)).trace
  {
    match exec(code, SnippetNamespace(df, extraVars))
    case Raised(error, trace) => ExecFailed(error, trace)
    case Completed(locals) =>
      Executed(Lookup(locals, "result"), Lookup(locals, "new_sheet_name"), Lookup(locals, "new_df"))
  }

  /**
   * The snippet sees the caller's sheet under `df` (unless an extra variable
   * rebinds it) and the three helpers; the extras win over the defaults.
   */
  lemma NamespaceContents(df: Table, extraVars: Namespace)
    ensures "df" !in extraVars ==> SnippetNamespace(df, extraVars)["df"] == Frame(df)
    ensures forall name :: name in extraVars ==> SnippetNamespace(df, extraVars)[name] == extraVars[name]
    ensures SnippetNamespace(df, extraVars).Keys
            == {"df", "pd", "find_column", "datetime"} + extraVars.Keys
  {
  }

  /** A name the snippet did not bind reads back as `None`; one it bound reads back as bound. */
  lemma UnboundNamesAreNone(df: Table, code: string, extraVars: Namespace,
                            exec: (string, Namespace) -> RunOutcome)
    requires exec(code, SnippetNamespace(df, extraVars)).Completed?
    ensures var locals := exec(code, SnippetNamespace(df, extraVars)).locals;
            var r := ExecuteSnippet(df, code, extraVars, exec);
            && r.Executed?
            && ("result" in locals ==> r.result == locals["result"])
            && ("result" !in locals ==> r.result == NoneValue)
            && ("new_sheet_name" in locals ==> r.newSheetName == locals["new_sheet_name"])
            && ("new_sheet_name" !in locals ==> r.newSheetName == NoneValue)
            && ("new_df" in locals ==> r.newDf == locals["new_df"])
            && ("new_df" !in locals ==> r.newDf == NoneValue)
  {
  }
}
