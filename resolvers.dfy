/**
 * The three `find_column` versions side by side: the agent's two-way partial
 * pass finds a column whenever the tool's one-way pass does, both find one
 * whenever the script's case-insensitive exact match does, and concrete
 * headers on which they part ways.
 */
module Resolvers {
  import opened Common
  import opened Text
  import AgentColumns
  import ExcelTool
  import MainScript

  /** Whatever the tool's version finds, the agent's version finds something too. */
  lemma ToolFoundAgentFinds(columns: seq<string>, searchTerm: string)
    requires ExcelTool.FindColumn(columns, searchTerm).Some?
    ensures AgentColumns.FindColumn(columns, searchTerm).Some?
  {
    ExcelTool.NotFoundIff(columns, searchTerm);
    AgentColumns.NotFoundIff(columns, searchTerm);
    var k :| 0 <= k < |columns| && ExcelTool.TermInHeader(columns[k], Normalize(searchTerm));
    assert AgentColumns.PartialMatch(columns[k], Normalize(searchTerm));
  }

  /** Deleting `_` and spaces after lower-casing cannot separate two equal lower-cased names. */
  lemma SameLowerSameKey(a: string, b: string)
    requires Lower(a) == Lower(b)
    ensures Normalize(a) == Normalize(b)
  {
  }

  /**
   * When some header equals the term up to letter case, all three versions
   * find a header (not necessarily the same one: the normalising versions
   * may stop at an earlier header that differs only in `_` or spaces).
   */
  lemma ScriptFoundAllFind(columns: seq<string>, searchTerm: string)
    requires MainScript.FindColumn(columns, searchTerm).Some?
    ensures AgentColumns.FindColumn(columns, searchTerm).Some?
    ensures ExcelTool.FindColumn(columns, searchTerm).Some?
  {
    MainScript.FoundIff(columns, searchTerm);
    var k :| 0 <= k < |columns| && Lower(columns[k]) == Lower(searchTerm);
    SameLowerSameKey(columns[k], searchTerm);
    var key := Normalize(searchTerm);
    assert StartsWith(key, key);
    AgentColumns.NotFoundIff(columns, searchTerm);
    assert AgentColumns.PartialMatch(columns[k], key);
    ExcelTool.NotFoundIff(columns, searchTerm);
    assert ExcelTool.TermInHeader(columns[k], key);
  }

  /** Where some header matches exactly after normalising, the agent and the tool agree. */
  lemma AgreeOnExactMatch(columns: seq<string>, searchTerm: string, i: nat)
    requires i < |columns| && Normalize(columns[i]) == Normalize(searchTerm)
    ensures AgentColumns.FindColumn(columns, searchTerm) == ExcelTool.FindColumn(columns, searchTerm)
  {
    var key := Normalize(searchTerm);
    var first := FirstExact(columns, key, i);
    AgentColumns.ExactMatchWins(columns, searchTerm, first);
    ExcelTool.ExactMatchWins(columns, searchTerm, first);
  }

  /** The first header whose normalised name is `key`, given that header `i` is one. */
  lemma {:induction false} FirstExact(columns: seq<string>, key: string, i: nat) returns (first: nat)
    requires i < |columns| && Normalize(columns[i]) == key
    ensures first <= i && Normalize(columns[first]) == key
    ensures forall k :: 0 <= k < first ==> Normalize(columns[k]) != key
  {
    if exists k :: 0 <= k < i && Normalize(columns[k]) == key {
      var k :| 0 <= k < i && Normalize(columns[k]) == key;
      first := FirstExact(columns, key, k);
    } else {
      first := i;
    }
  }

  /** The normalised name spelled out: separators dropped, the rest lower-cased. */
  function Squeezed(s: string): string {
    if s == [] then [] else (if IsSeparator(s[0]) then [] else [LowerChar(s[0])]) + Squeezed(s[1..])
  }

  lemma {:induction false} NormalizeIsSqueezed(s: string)
    ensures Normalize(s) == Squeezed(s)
  {
    if s != [] {
      assert s == [s[0]] + s[1..];
      NormalizeCons(s[0], s[1..]);
      NormalizeIsSqueezed(s[1..]);
    }
  }

  /** The squeezed name is built one character at a time. */
  lemma SqueezedCons(c: char, s: string)
    ensures Squeezed([c] + s) == (if IsSeparator(c) then [] else [LowerChar(c)]) + Squeezed(s)
  {
    assert ([c] + s)[1..] == s;
  }

  lemma SqueezedPrice()
    ensures Squeezed("Price") == "price"
  {
    var s := "Price";
    assert s[0..] == [s[0]] + s[1..];
    SqueezedCons(s[0], s[1..]);
    assert s[1..] == [s[1]] + s[2..];
    SqueezedCons(s[1], s[2..]);
    assert s[2..] == [s[2]] + s[3..];
    SqueezedCons(s[2], s[3..]);
    assert s[3..] == [s[3]] + s[4..];
    SqueezedCons(s[3], s[4..]);
    assert s[4..] == [s[4]] + s[5..];
    SqueezedCons(s[4], s[5..]);
  }

  lemma NormalizedPrice()
    ensures Normalize("Price") == "price"
  {
    NormalizeIsSqueezed("Price");
    SqueezedPrice();
  }

  lemma SqueezedUnitPrice()
    ensures Squeezed("unitprice") == "unitprice"
  {
    var s := "unitprice";
    assert s[0..] == [s[0]] + s[1..];
    SqueezedCons(s[0], s[1..]);
    assert s[1..] == [s[1]] + s[2..];
    SqueezedCons(s[1], s[2..]);
    assert s[2..] == [s[2]] + s[3..];
    SqueezedCons(s[2], s[3..]);
    assert s[3..] == [s[3]] + s[4..];
    SqueezedCons(s[3], s[4..]);
    assert s[4..] == [s[4]] + s[5..];
    SqueezedCons(s[4], s[5..]);
    assert s[5..] == [s[5]] + s[6..];
    SqueezedCons(s[5], s[6..]);
    assert s[6..] == [s[6]] + s[7..];
    SqueezedCons(s[6], s[7..]);
    assert s[7..] == [s[7]] + s[8..];
    SqueezedCons(s[7], s[8..]);
    assert s[8..] == [s[8]] + s[9..];
    SqueezedCons(s[8], s[9..]);
  }

  lemma NormalizedUnitPrice()
    ensures Normalize("unitprice") == "unitprice"
  {
    NormalizeIsSqueezed("unitprice");
    SqueezedUnitPrice();
  }

  lemma SqueezedTaxIdHeader()
    ensures Squeezed("Tax_ID") == "taxid"
  {
    var s := "Tax_ID";
    assert s[0..] == [s[0]] + s[1..];
    SqueezedCons(s[0], s[1..]);
    assert s[1..] == [s[1]] + s[2..];
    SqueezedCons(s[1], s[2..]);
    assert s[2..] == [s[2]] + s[3..];
    SqueezedCons(s[2], s[3..]);
    assert s[3..] == [s[3]] + s[4..];
    SqueezedCons(s[3], s[4..]);
    assert s[4..] == [s[4]] + s[5..];
    SqueezedCons(s[4], s[5..]);
    assert s[5..] == [s[5]] + s[6..];
    SqueezedCons(s[5], s[6..]);
  }

  lemma NormalizedTaxIdHeader()
    ensures Normalize("Tax_ID") == "taxid"
  {
    NormalizeIsSqueezed("Tax_ID");
    SqueezedTaxIdHeader();
  }

  lemma SqueezedTaxIdTerm()
    ensures Squeezed("tax id") == "taxid"
  {
    var s := "tax id";
    assert s[0..] == [s[0]] + s[1..];
    SqueezedCons(s[0], s[1..]);
    assert s[1..] == [s[1]] + s[2..];
    SqueezedCons(s[1], s[2..]);
    assert s[2..] == [s[2]] + s[3..];
    SqueezedCons(s[2], s[3..]);
    assert s[3..] == [s[3]] + s[4..];
    SqueezedCons(s[3], s[4..]);
    assert s[4..] == [s[4]] + s[5..];
    SqueezedCons(s[4], s[5..]);
    assert s[5..] == [s[5]] + s[6..];
    SqueezedCons(s[5], s[6..]);
  }

  lemma NormalizedTaxIdTerm()
    ensures Normalize("tax id") == "taxid"
  {
    NormalizeIsSqueezed("tax id");
    SqueezedTaxIdTerm();
  }

  /** "unitprice" finds "Price" only in the agent, which also looks for the header inside the term. */
  lemma UnitPriceAgainstPrice()
    ensures AgentColumns.FindColumn(["Price"], "unitprice") == Some("Price")
    ensures ExcelTool.FindColumn(["Price"], "unitprice") == None
    ensures MainScript.FindColumn(["Price"], "unitprice") == None
  {
    NormalizedPrice();
    NormalizedUnitPrice();
    var term := "unitprice";
    assert Lower("Price")[0] != Lower(term)[0];
    assert term[4..] == "price";
    assert StartsWith(term[4..], "price");
    ContainsInSuffix(term, 4, "price");
    AgentColumns.PartialMatchOtherwise(["Price"], term, 0);
    ExcelTool.LongerTermNotFound(["Price"], term);
    MainScript.FoundIff(["Price"], term);
  }

  /** "tax id" finds "Tax_ID" in the normalising versions but not in the script's. */
  lemma SeparatorsOnlyNormalised()
    ensures AgentColumns.FindColumn(["Tax_ID"], "tax id") == Some("Tax_ID")
    ensures ExcelTool.FindColumn(["Tax_ID"], "tax id") == Some("Tax_ID")
    ensures MainScript.FindColumn(["Tax_ID"], "tax id") == None
  {
    NormalizedTaxIdHeader();
    NormalizedTaxIdTerm();
    assert Lower("Tax_ID")[3] != Lower("tax id")[3];
    MainScript.FoundIff(["Tax_ID"], "tax id");
    AgentColumns.ExactMatchWins(["Tax_ID"], "tax id", 0);
    ExcelTool.ExactMatchWins(["Tax_ID"], "tax id", 0);
  }
}
