/**
 * `find_column` of the multi-sheet agent: normalise the search term and every
 * header (lower-case, no `_`, no spaces), return the first header equal to
 * the term, else the first header that contains the term or is contained in
 * it, else `None`.
 */
module AgentColumns {
  import opened Common
  import opened Text
  import Search

  /** The exact pass: the normalised header equals the normalised term. */
  predicate ExactMatch(col: string, key: string) {
    Normalize(col) == key
  }

  /** The partial pass: the term lies inside the header, or the header inside the term. */
  predicate PartialMatch(col: string, key: string) {
    Contains(Normalize(col), key) || Contains(key, Normalize(col))
  }

  function FindColumn(columns: seq<string>, searchTerm: string): (r: Option<string>)
    ensures r.None? || r.value in columns
  {
    var key := Normalize(searchTerm);
    match Search.FirstIndex(columns, col => ExactMatch(col, key))
    case Some(i) => Some(columns[i])
    case None =>
      match Search.FirstIndex(columns, col => PartialMatch(col, key))
      case Some(i) => Some(columns[i])
      case None => None
  }

  /**
   * When some header matches exactly, the first such header is the answer,
   * even if an earlier header would have matched partially.
   */
  lemma ExactMatchWins(columns: seq<string>, searchTerm: string, i: nat)
    requires i < |columns| && ExactMatch(columns[i], Normalize(searchTerm))
    requires forall k :: 0 <= k < i ==> !ExactMatch(columns[k], Normalize(searchTerm))
    ensures FindColumn(columns, searchTerm) == Some(columns[i])
  {
    var key := Normalize(searchTerm);
    var j := Search.FirstIndex(columns, col => ExactMatch(col, key));
    assert j.Some? && j.value == i;
  }

  /** With no exact match, the first header matching in either direction is the answer. */
  lemma PartialMatchOtherwise(columns: seq<string>, searchTerm: string, i: nat)
    requires forall k :: 0 <= k < |columns| ==> !ExactMatch(columns[k], Normalize(searchTerm))
    requires i < |columns| && PartialMatch(columns[i], Normalize(searchTerm))
    requires forall k :: 0 <= k < i ==> !PartialMatch(columns[k], Normalize(searchTerm))
    ensures FindColumn(columns, searchTerm) == Some(columns[i])
  {
    var key := Normalize(searchTerm);
    assert Search.FirstIndex(columns, col => ExactMatch(col, key)).None?;
    var j := Search.FirstIndex(columns, col => PartialMatch(col, key));
    assert j.Some? && j.value == i;
  }

  /**
   * `None` comes back exactly when no header matches in either direction
   * (an exact match is a partial one, as every string contains itself).
   */
  lemma NotFoundIff(columns: seq<string>, searchTerm: string)
    ensures FindColumn(columns, searchTerm).None?
            <==> forall k :: 0 <= k < |columns| ==> !PartialMatch(columns[k], Normalize(searchTerm))
  {
    var key := Normalize(searchTerm);
    forall k | 0 <= k < |columns| && ExactMatch(columns[k], key)
      ensures PartialMatch(columns[k], key)
    {
      assert StartsWith(key, Normalize(columns[k]));
    }
  }

  /** Search terms that differ only in letter case, `_` and spaces resolve alike. */
  lemma TermVariants(columns: seq<string>, a: string, b: string)
    requires SameModuloCaseAndSeparators(a, b)
    ensures FindColumn(columns, a) == FindColumn(columns, b)
  {
    NormalizeEqualIff(a, b);
  }

  /**
   * A term that normalises to "" (such as "_" or " ") is contained in every
   * header, so it resolves to the first header unless some header itself
   * normalises to "".
   */
  lemma EmptyTermTakesFirstColumn(columns: seq<string>, searchTerm: string)
    requires Normalize(searchTerm) == [] && columns != []
    requires forall k :: 0 <= k < |columns| ==> Normalize(columns[k]) != []
    ensures FindColumn(columns, searchTerm) == Some(columns[0])
  {
    assert StartsWith(Normalize(columns[0]), []);
    PartialMatchOtherwise(columns, searchTerm, 0);
  }
}
