/**
 * The agent's cleaning of model output (`detect_query_intent` and the three
 * `generate_*_code` functions): strip, delete every occurrence of each
 * marker in turn, strip again; and the intent record with its fallback.
 */
module AgentCodegen {
  import opened Common
  import opened Text

  /** The markers the code generators delete, in order. */
  const PythonMarkers: seq<string> := ["```python", Fence]

  /** The markers `detect_query_intent` deletes, in order. */
  const JsonMarkers: seq<string> := ["```json", Fence]

  /** `for marker in markers: s = s.replace(marker, "")`, as a left fold. */
  function RemoveMarkers(s: string, markers: seq<string>): (r: string)
    ensures |r| <= |s|
    ensures markers != [] && markers[|markers| - 1] == Fence ==> !Contains(r, Fence)
  {
    if markers == [] then s
    else
      var before := RemoveMarkers(s, markers[..|markers| - 1]);
      NoFenceAfterRemoval(before);
      RemoveAll(before, markers[|markers| - 1])
  }

  /** What the cleaning returns for a response text. */
  function Cleaned(text: string, markers: seq<string>): (r: string)
    ensures Trimmed(r) && |r| <= |text|
  {
    StripInfix(RemoveMarkers(Strip(text), markers));
    Strip(RemoveMarkers(Strip(text), markers))
  }

  /**
   * The cleaning loop: `code = text.strip()`, then each marker deleted
   * everywhere, then a final `strip()`.
   */
  method CleanResponse(text: string, markers: seq<string>) returns (code: string)
    ensures code == Cleaned(text, markers)
  {
    code := Strip(text);
    for i := 0 to |markers|
      invariant code == RemoveMarkers(Strip(text), markers[..i])
    {
      assert markers[..i + 1][..i] == markers[..i];
      code := RemoveAll(code, markers[i]);
    }
    assert markers[..|markers|] == markers;
    code := Strip(code);
  }

  /**
   * When the last marker is the fence, no fence is left in the cleaned text,
   * and it has no whitespace at either end.
   */
  lemma CleanedHasNoFence(text: string, markers: seq<string>)
    requires markers != [] && markers[|markers| - 1] == Fence
    ensures !Contains(Cleaned(text, markers), Fence)
    ensures Trimmed(Cleaned(text, markers))
  {
    var before := RemoveMarkers(Strip(text), markers[..|markers| - 1]);
    NoFenceAfterRemoval(before);
    NoFenceAfterStrip(RemoveAll(before, Fence));
    StripInfix(RemoveAll(before, Fence));
  }

  // ---------------------------------------------------------------------------
  // Texts without backticks come through

  predicate NoBackticks(s: string) {
    forall k :: 0 <= k < |s| ==> s[k] != '`'
  }

  /** A marker that begins with a backtick finds nothing to delete in a backtick-free prefix. */
  lemma {:induction false} RemoveAllAfterPlain(c: string, tail: string, p: string)
    requires p != [] && p[0] == '`' && NoBackticks(c)
    requires |tail| < |p| ==> RemoveAll(tail, p) == tail
    ensures RemoveAll(c + tail, p) == c + RemoveAll(tail, p)
    decreases |c|
  {
    if c == [] {
      assert c + tail == tail;
    } else {
      var s := c + tail;
      assert s[0] == c[0] != '`';
      assert s[1..] == c[1..] + tail;
      RemoveAllAfterPlain(c[1..], tail, p);
      if |s| >= |p| {
        assert s[..|p|] != p by { assert s[..|p|][0] != p[0]; }
        assert RemoveAll(s, p) == [c[0]] + (c[1..] + RemoveAll(tail, p));
        assert [c[0]] + (c[1..] + RemoveAll(tail, p)) == c + RemoveAll(tail, p);
      }
    }
  }

  /** Every marker here begins with a backtick. */
  predicate FenceMarkers(markers: seq<string>) {
    forall i :: 0 <= i < |markers| ==> markers[i] != [] && markers[i][0] == '`'
  }

  lemma {:induction false} RemoveMarkersPlain(c: string, markers: seq<string>)
    requires FenceMarkers(markers) && NoBackticks(c)
    ensures RemoveMarkers(c, markers) == c
  {
    if markers != [] {
      var init := markers[..|markers| - 1];
      RemoveMarkersPlain(c, init);
      assert c + [] == c;
      RemoveAllAfterPlain(c, [], markers[|markers| - 1]);
    }
  }

  /** A response without backticks is only stripped. */
  lemma PlainResponse(text: string, markers: seq<string>)
    requires FenceMarkers(markers) && NoBackticks(text)
    ensures Cleaned(text, markers) == Strip(text)
  {
    StripInfixPlain(text);
    RemoveMarkersPlain(Strip(text), markers);
    StripIdempotent(text);
  }

  /** Stripping a backtick-free text leaves it backtick-free. */
  lemma StripInfixPlain(text: string)
    requires NoBackticks(text)
    ensures NoBackticks(Strip(text))
  {
    var l := StripLeft(text);
    StripLeftSuffix(text);
    StripRightPrefix(l);
    assert forall k :: 0 <= k < |l| ==> l[k] == text[|text| - |l| + k];
    var r := StripRight(l);
    assert forall k :: 0 <= k < |r| ==> r[k] == l[k];
  }

  /** `strip()` twice is `strip()` once. */
  lemma StripIdempotent(s: string)
    ensures Strip(Strip(s)) == Strip(s)
  {
    var l := StripLeft(s);
    var r := StripRight(l);
    StripLeftSuffix(s);
    StripRightPrefix(l);
    assert StripLeft(r) == r by {
      if r != [] {
        assert r[0] == l[0];
      }
    }
  }

  /** Two markers are deleted one after the other. */
  lemma TwoMarkers(s: string, m1: string, m2: string)
    ensures RemoveMarkers(s, [m1, m2]) == RemoveAll(RemoveAll(s, m1), m2)
  {
    var ms := [m1, m2];
    assert ms[..1] == [m1];
    assert [m1][..0] == [];
    assert RemoveMarkers(s, [m1]) == RemoveAll(RemoveMarkers(s, []), m1);
    assert RemoveMarkers(s, ms) == RemoveAll(RemoveMarkers(s, ms[..1]), m2);
  }

  /** Deleting a pattern from text that starts with it drops that occurrence first. */
  lemma RemoveLeading(p: string, rest: string)
    requires p != []
    ensures RemoveAll(p + rest, p) == RemoveAll(rest, p)
  {
    assert (p + rest)[..|p|] == p;
    assert (p + rest)[|p|..] == rest;
  }

  lemma FenceRemovesItself()
    ensures RemoveAll(Fence, Fence) == []
    ensures RemoveAll(Fence, "```python") == Fence
  {
    assert Fence[..3] == Fence && Fence[3..] == [];
  }

  /**
   * A block fenced as the model usually sends it, "```python" + code + "```",
   * comes back as the stripped code when the code holds no backtick.
   */
  lemma FencedBlock(c: string)
    requires NoBackticks(c)
    ensures Cleaned("```python" + c + Fence, PythonMarkers) == Strip(c)
  {
    var p := "```python";
    var t := p + (c + Fence);
    assert "```python" + c + Fence == t;
    assert Strip(t) == t by {
      assert t[0] == '`' && t[|t| - 1] == '`';
    }
    TwoMarkers(t, p, Fence);
    RemoveLeading(p, c + Fence);
    FenceRemovesItself();
    RemoveAllAfterPlain(c, Fence, p);
    RemoveAllAfterPlain(c, Fence, Fence);
    assert c + [] == c;
  }

  // ---------------------------------------------------------------------------
  // detect_query_intent

  /** `target_sheets` as the parsed JSON holds it: missing, `null`, or a list of names. */
  datatype Targets = TargetsAbsent | TargetsNull | TargetList(names: seq<string>)

  /** The parsed intent record. */
  datatype Intent = Intent(
    intent: string,
    targetSheets: Targets,
    newSheetName: Option<string>,
    fieldsToUpdate: Option<seq<string>>,
    description: string)

  /** The record used when the model's answer cannot be read. */
  function FallbackIntent(userQuery: string): (r: Intent)
    ensures r.intent == "query_data" && r.targetSheets == TargetsNull
    ensures r.newSheetName.None? && r.fieldsToUpdate.None? && r.description == userQuery
  {
    Intent("query_data", TargetsNull, None, None, userQuery)
  }

  /**
   * What `detect_query_intent` returns: `response` is the model's text, or
   * `None` when reading it raised; `parse` is `json.loads` followed by
   * reading the record, `None` when that raised. Either failure gives the
   * fallback record.
   */
  function ParsedIntent(userQuery: string, response: Option<string>, parse: string -> Option<Intent>): (r: Intent)
    ensures response.None? ==> r == FallbackIntent(userQuery)
    ensures response.Some? && parse(Cleaned(response.value, JsonMarkers)).None? ==> r == FallbackIntent(userQuery)
    ensures response.Some? && parse(Cleaned(response.value, JsonMarkers)).Some?
            ==> r == parse(Cleaned(response.value, JsonMarkers)).value
  {
    match response
    case None => FallbackIntent(userQuery)
    case Some(text) =>
      match parse(Cleaned(text, JsonMarkers))
      case None => FallbackIntent(userQuery)
      case Some(intent) => intent
  }

  /** `detect_query_intent`, cleaning the answer with the marker loop. */
  method DetectQueryIntent(userQuery: string, response: Option<string>, parse: string -> Option<Intent>)
    returns (r: Intent)
    ensures r == ParsedIntent(userQuery, response, parse)
  {
    if response.None? {
      return FallbackIntent(userQuery);
    }
    var text := CleanResponse(response.value, JsonMarkers);
    var parsed := parse(text);
    if parsed.None? {
      r := FallbackIntent(userQuery);
    } else {
      r := parsed.value;
    }
  }

  /** An intent other than the fallback comes only from parsing a fence-free, trimmed text. */
  lemma ParsedFromCleanText(userQuery: string, response: Option<string>, parse: string -> Option<Intent>)
    requires ParsedIntent(userQuery, response, parse) != FallbackIntent(userQuery)
    ensures response.Some?
    ensures parse(Cleaned(response.value, JsonMarkers)) == Some(ParsedIntent(userQuery, response, parse))
    ensures !Contains(Cleaned(response.value, JsonMarkers), Fence) && Trimmed(Cleaned(response.value, JsonMarkers))
  {
    CleanedHasNoFence(response.value, JsonMarkers);
  }
}
