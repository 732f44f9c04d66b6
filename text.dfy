/**
 * The Python string operations the scripts use: `str.lower`, `str.replace(p, "")`,
 * the `in` substring test, `str.strip`, `startswith` and `endswith`, and the
 * header normalisation `lower().replace("_", "").replace(" ", "")` built from them.
 */
module Text {

  /** The code fence the language model wraps its answers in. */
  const Fence: string := "```"

  /** Characters for which Python's `str.isspace()` holds: what `str.strip()` removes. */
  predicate IsSpace(c: char) {
    var n := c as int;
    || n == 0x20 || 0x09 <= n <= 0x0D || 0x1C <= n <= 0x1F || n == 0x85 || n == 0xA0
    || n == 0x1680 || 0x2000 <= n <= 0x200A || n == 0x2028 || n == 0x2029
    || n == 0x202F || n == 0x205F || n == 0x3000
  }

  /** `str.lower()` on one character, for the ASCII letters. */
  function LowerChar(c: char): char {
    if 'A' <= c <= 'Z' then (c as int + 32) as char else c
  }

  /** `str.lower()`. */
  function Lower(s: string): (r: string)
    ensures |r| == |s|
  {
    seq(|s|, i requires 0 <= i < |s| => LowerChar(s[i]))
  }

  predicate StartsWith(s: string, p: string) {
    |p| <= |s| && s[..|p|] == p
  }

  predicate EndsWith(s: string, p: string) {
    |p| <= |s| && s[|s| - |p|..] == p
  }

  /** Python's `p in s`: `p` occurs somewhere in `s` (the empty string occurs everywhere). */
  predicate Contains(s: string, p: string)
    decreases |s|
  {
    StartsWith(s, p) || (s != [] && Contains(s[1..], p))
  }

  /**
   * `s.replace(p, "")`: scans left to right and deletes every non-overlapping
   * occurrence of `p` (deleting the empty string changes nothing).
   */
  function RemoveAll(s: string, p: string): (r: string)
    ensures |r| <= |s|
    decreases |s|
  {
    if p == [] || |s| < |p| then s
    else if s[..|p|] == p then RemoveAll(s[|p|..], p)
    else [s[0]] + RemoveAll(s[1..], p)
  }

  /** `s.lstrip()`. */
  function StripLeft(s: string): string {
    if s != [] && IsSpace(s[0]) then StripLeft(s[1..]) else s
  }

  /** `s.rstrip()`. */
  function StripRight(s: string): string {
    if s != [] && IsSpace(s[|s| - 1]) then StripRight(s[..|s| - 1]) else s
  }

  /** `s.strip()`. */
  function Strip(s: string): (r: string)
    ensures |r| <= |s|
  {
    StripLeftSuffix(s);
    StripRightPrefix(StripLeft(s));
    StripRight(StripLeft(s))
  }

  /** Neither end of `s` is whitespace. */
  predicate Trimmed(s: string) {
    s == [] || (!IsSpace(s[0]) && !IsSpace(s[|s| - 1]))
  }

  /** Every character of `s` is whitespace. */
  predicate AllSpace(s: string) {
    forall k :: 0 <= k < |s| ==> IsSpace(s[k])
  }

  /** `s` is `t` with nothing but whitespace added at either end. */
  predicate PaddedBy(s: string, t: string) {
    exists i :: 0 <= i <= |s| - |t| && s[i..i + |t|] == t && AllSpace(s[..i]) && AllSpace(s[i + |t|..])
  }

  /** The header normalisation: lower-case, then drop every `_`, then every space. */
  function Normalize(s: string): (r: string)
    ensures |r| <= |s|
  {
    RemoveAll(RemoveAll(Lower(s), "_"), " ")
  }

  /** The characters the normalisation deletes. */
  predicate IsSeparator(c: char) {
    c == '_' || c == ' '
  }

  /**
   * An independent reading of "differ only in letter case, underscores and
   * spaces": skip separators on either side, compare the rest case-insensitively.
   */
  predicate SameModuloCaseAndSeparators(a: string, b: string)
    decreases |a| + |b|
  {
    if a != [] && IsSeparator(a[0]) then SameModuloCaseAndSeparators(a[1..], b)
    else if b != [] && IsSeparator(b[0]) then SameModuloCaseAndSeparators(a, b[1..])
    else if a == [] || b == [] then a == [] && b == []
    else LowerChar(a[0]) == LowerChar(b[0]) && SameModuloCaseAndSeparators(a[1..], b[1..])
  }

  /** Number of backticks in `s`. */
  function Backticks(s: string): nat {
    if s == [] then 0 else (if s[0] == '`' then 1 else 0) + Backticks(s[1..])
  }

  // ---------------------------------------------------------------------------
  // Substrings

  lemma {:induction false} ContainsLength(s: string, p: string)
    requires Contains(s, p)
    ensures |p| <= |s|
    decreases |s|
  {
    if !StartsWith(s, p) {
      ContainsLength(s[1..], p);
    }
  }

  /** An occurrence in a suffix is an occurrence in the whole. */
  lemma {:induction false} ContainsInSuffix(s: string, k: nat, p: string)
    requires k <= |s| && Contains(s[k..], p)
    ensures Contains(s, p)
    decreases k
  {
    if k > 0 {
      assert s[k..] == s[1..][k - 1..];
      ContainsInSuffix(s[1..], k - 1, p);
    }
  }

  /** An occurrence in a prefix is an occurrence in the whole. */
  lemma {:induction false} ContainsInPrefix(s: string, k: nat, p: string)
    requires k <= |s| && Contains(s[..k], p)
    ensures Contains(s, p)
    decreases k
  {
    if StartsWith(s[..k], p) {
      assert s[..|p|] == s[..k][..|p|];
    } else {
      assert s[..k][1..] == s[1..][..k - 1];
      ContainsInPrefix(s[1..], k - 1, p);
    }
  }

  /** Occurring in an infix of `s` means occurring in `s`. */
  lemma {:induction false} ContainsTransitive(s: string, t: string, p: string)
    requires Contains(s, t) && Contains(t, p)
    ensures Contains(s, p)
    decreases |s|
  {
    if StartsWith(s, t) {
      ContainsInPrefix(s, |t|, p);
    } else {
      ContainsTransitive(s[1..], t, p);
    }
  }

  /** What `lstrip()` leaves is a suffix of its input that does not start with whitespace. */
  lemma {:induction false} StripLeftSuffix(s: string)
    ensures |StripLeft(s)| <= |s| && StripLeft(s) == s[|s| - |StripLeft(s)|..]
    ensures StripLeft(s) != [] ==> !IsSpace(StripLeft(s)[0])
    ensures forall k :: 0 <= k < |s| - |StripLeft(s)| ==> IsSpace(s[k])
    decreases |s|
  {
    if s != [] && IsSpace(s[0]) {
      StripLeftSuffix(s[1..]);
    }
  }

  /** What `rstrip()` leaves is a prefix of its input that does not end with whitespace. */
  lemma {:induction false} StripRightPrefix(s: string)
    ensures |StripRight(s)| <= |s| && StripRight(s) == s[..|StripRight(s)|]
    ensures StripRight(s) != [] ==> !IsSpace(StripRight(s)[|StripRight(s)| - 1])
    ensures forall k :: |StripRight(s)| <= k < |s| ==> IsSpace(s[k])
    decreases |s|
  {
    if s != [] && IsSpace(s[|s| - 1]) {
      StripRightPrefix(s[..|s| - 1]);
    }
  }

  /** `strip()` removes nothing but whitespace before and after what it keeps. */
  lemma StripPadded(s: string)
    ensures PaddedBy(s, Strip(s))
  {
    var l := StripLeft(s);
    var r := Strip(s);
    StripLeftSuffix(s);
    StripRightPrefix(l);
    var i := |s| - |l|;
    assert s[i..i + |r|] == l[..|r|] == r;
    assert AllSpace(s[..i]);
    var tail := s[i + |r|..];
    forall k | 0 <= k < |tail|
      ensures IsSpace(tail[k])
    {
      assert tail[k] == l[|r| + k];
    }
    assert AllSpace(tail);
  }

  /**
   * `strip()` keeps a contiguous piece of its input, trimmed at both ends,
   * and removes nothing but whitespace around it.
   */
  lemma StripInfix(s: string)
    ensures Contains(s, Strip(s)) && Trimmed(Strip(s)) && PaddedBy(s, Strip(s))
  {
    var l := StripLeft(s);
    var r := Strip(s);
    assert Contains(s, r) && Trimmed(r) by {
      StripLeftSuffix(s);
      StripRightPrefix(l);
      if r != [] {
        assert r[0] == l[0];
      }
      assert StartsWith(l, r);
      ContainsInSuffix(s, |s| - |l|, r);
    }
    StripPadded(s);
  }

  // ---------------------------------------------------------------------------
  // Removing the code fence

  /** A removal that does not start at the first character keeps that character. */
  lemma {:induction false} RemoveAllKeepsHead(s: string, p: string)
    requires p != [] && s != [] && !StartsWith(s, p)
    ensures RemoveAll(s, p) != [] && RemoveAll(s, p)[0] == s[0]
  {
  }

  /**
   * After `replace("```", "")` no fence is left: a run of backticks loses all
   * its complete triples, and the characters around a run are kept, so two
   * runs never join.
   */
  lemma {:induction false} NoFenceAfterRemoval(s: string)
    ensures !Contains(RemoveAll(s, Fence), Fence)
    decreases |s|
  {
    var r := RemoveAll(s, Fence);
    if |s| < 3 {
      if Contains(r, Fence) { ContainsLength(r, Fence); }
    } else if s[..3] == Fence {
      NoFenceAfterRemoval(s[3..]);
    } else {
      var t := s[1..];
      var rest := RemoveAll(t, Fence);
      NoFenceAfterRemoval(t);
      assert r == [s[0]] + rest;
      assert r[1..] == rest;
      if s[0] != '`' {
        assert r[0] != '`';
      } else if s[1] != '`' {
        RemoveAllKeepsHead(t, Fence);
        assert r[1] != '`';
      } else {
        assert s[2] != '`';
        if |t| >= 3 {
          assert !StartsWith(t, Fence);
          assert rest == [t[0]] + RemoveAll(t[1..], Fence);
          RemoveAllKeepsHead(t[1..], Fence);
        } else {
          assert rest == t;
        }
        assert r[2] != '`';
      }
      assert !StartsWith(r, Fence);
    }
  }

  /** `strip()` cannot create a fence. */
  lemma NoFenceAfterStrip(s: string)
    requires !Contains(s, Fence)
    ensures !Contains(Strip(s), Fence)
  {
    StripInfix(s);
    if Contains(Strip(s), Fence) {
      ContainsTransitive(s, Strip(s), Fence);
    }
  }

  // ---------------------------------------------------------------------------
  // Normalisation

  /** Deleting a one-character pattern works character by character. */
  lemma RemoveCharCons(c: char, s: string, p: string)
    requires |p| == 1
    ensures RemoveAll([c] + s, p) == (if c == p[0] then [] else [c]) + RemoveAll(s, p)
  {
    assert ([c] + s)[1..] == s;
    assert ([c] + s)[..1] == [c];
  }

  /** The normalisation works character by character. */
  lemma NormalizeCons(c: char, s: string)
    ensures Normalize([c] + s) == (if IsSeparator(c) then [] else [LowerChar(c)]) + Normalize(s)
  {
    assert Lower([c] + s) == [LowerChar(c)] + Lower(s);
    RemoveCharCons(LowerChar(c), Lower(s), "_");
    var u := RemoveAll(Lower(s), "_");
    if LowerChar(c) != '_' {
      RemoveCharCons(LowerChar(c), u, " ");
    }
  }

  /**
   * Two search terms normalise alike exactly when they differ only in letter
   * case, underscores and spaces.
   */
  lemma {:induction false} NormalizeEqualIff(a: string, b: string)
    ensures Normalize(a) == Normalize(b) <==> SameModuloCaseAndSeparators(a, b)
    decreases |a| + |b|
  {
    if a != [] && IsSeparator(a[0]) {
      assert a == [a[0]] + a[1..];
      NormalizeCons(a[0], a[1..]);
      NormalizeEqualIff(a[1..], b);
    } else if b != [] && IsSeparator(b[0]) {
      assert b == [b[0]] + b[1..];
      NormalizeCons(b[0], b[1..]);
      NormalizeEqualIff(a, b[1..]);
    } else if a == [] && b == [] {
    } else if a == [] {
      assert b == [b[0]] + b[1..];
      NormalizeCons(b[0], b[1..]);
      assert Normalize(a) == [];
    } else if b == [] {
      assert a == [a[0]] + a[1..];
      NormalizeCons(a[0], a[1..]);
      assert Normalize(b) == [];
    } else {
      assert a == [a[0]] + a[1..];
      assert b == [b[0]] + b[1..];
      NormalizeCons(a[0], a[1..]);
      NormalizeCons(b[0], b[1..]);
      NormalizeEqualIff(a[1..], b[1..]);
      var na, nb := Normalize(a[1..]), Normalize(b[1..]);
      assert Normalize(a) == [LowerChar(a[0])] + na;
      assert Normalize(b) == [LowerChar(b[0])] + nb;
      if Normalize(a) == Normalize(b) {
        assert na == Normalize(a)[1..];
      }
    }
  }

  // ---------------------------------------------------------------------------
  // Backtick counts

  lemma {:induction false} BackticksConcat(a: string, b: string)
    ensures Backticks(a + b) == Backticks(a) + Backticks(b)
    decreases |a|
  {
    if a != [] {
      assert (a + b)[0] == a[0];
      assert (a + b)[1..] == a[1..] + b;
      BackticksConcat(a[1..], b);
    } else {
      assert a + b == b;
    }
  }

  /** `strip()` removes whitespace only, so it keeps every backtick. */
  lemma {:induction false} BackticksStripLeft(s: string)
    ensures Backticks(StripLeft(s)) == Backticks(s)
    decreases |s|
  {
    if s != [] && IsSpace(s[0]) {
      BackticksStripLeft(s[1..]);
    }
  }

  lemma {:induction false} BackticksStripRight(s: string)
    ensures Backticks(StripRight(s)) == Backticks(s)
    decreases |s|
  {
    if s != [] && IsSpace(s[|s| - 1]) {
      assert s == s[..|s| - 1] + [s[|s| - 1]];
      BackticksConcat(s[..|s| - 1], [s[|s| - 1]]);
      BackticksStripRight(s[..|s| - 1]);
    }
  }

  lemma BackticksStrip(s: string)
    ensures Backticks(Strip(s)) == Backticks(s)
  {
    BackticksStripLeft(s);
    BackticksStripRight(StripLeft(s));
  }
}
