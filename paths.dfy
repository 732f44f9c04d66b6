/**
 * POSIX `os.path.split`, `os.path.splitext` and `os.path.join`, and
 * `strftime("%Y%m%d_%H%M%S")`: what the loader's extension check and the
 * output file name are made of.
 */
module Paths {
  import opened Text

  /** `s.rfind(c)`: the last position of `c`, or -1. */
  function LastIndexOf(s: string, c: char): (r: int)
    ensures -1 <= r < |s|
    ensures r >= 0 ==> s[r] == c
    ensures forall k :: r < k < |s| ==> s[k] != c
  {
    if s == [] then -1
    else if s[|s| - 1] == c then |s| - 1
    else LastIndexOf(s[..|s| - 1], c)
  }

  predicate AllChars(s: string, c: char) {
    forall k :: 0 <= k < |s| ==> s[k] == c
  }

  predicate NoSlash(s: string) {
    forall k :: 0 <= k < |s| ==> s[k] != '/'
  }

  /** `s.rstrip(c)`. */
  function StripRightChar(s: string, c: char): (r: string)
    ensures |r| <= |s| && r == s[..|r|]
    ensures r == [] || r[|r| - 1] != c
  {
    if s != [] && s[|s| - 1] == c then StripRightChar(s[..|s| - 1], c) else s
  }

  /** `os.path.split(p)`: the directory part (trailing slashes dropped unless it is all slashes) and the last component. */
  function Split(p: string): (r: (string, string))
    ensures |r.1| <= |p| && r.1 == p[|p| - |r.1|..] && NoSlash(r.1)
  {
    var i := LastIndexOf(p, '/') + 1;
    var head := p[..i];
    (if head != [] && !AllChars(head, '/') then StripRightChar(head, '/') else head, p[i..])
  }

  /**
   * Where `os.path.splitext(p)` cuts: at the last dot of the last component,
   * unless only dots precede it there (".bashrc" has no extension); at the
   * end when there is no such dot.
   */
  function ExtensionStart(p: string): (i: nat)
    ensures i <= |p|
    ensures i < |p| ==> p[i] == '.' && forall k :: i <= k < |p| ==> p[k] != '/'
  {
    var sep := LastIndexOf(p, '/');
    var dot := LastIndexOf(p, '.');
    if dot > sep && !AllChars(p[sep + 1..dot], '.') then dot else |p|
  }

  /** `os.path.splitext(p)`: the root and the extension, which starts with its dot. */
  function SplitExt(p: string): (r: (string, string))
    ensures r.0 + r.1 == p
    ensures r.1 == [] || (r.1[0] == '.' && NoSlash(r.1))
  {
    var i := ExtensionStart(p);
    assert p[..i] + p[i..] == p;
    assert forall k :: 0 <= k < |p[i..]| ==> p[i..][k] == p[i + k];
    (p[..i], p[i..])
  }

  /** `os.path.join(a, b)`. */
  function Join(a: string, b: string): (r: string)
    ensures EndsWith(r, b)
  {
    if StartsWith(b, "/") then b
    else if a == [] || EndsWith(a, "/") then a + b
    else a + "/" + b
  }

  /** A directory part as `Split` returns it. */
  predicate IsDirPart(d: string) {
    d == [] || AllChars(d, '/') || d[|d| - 1] != '/'
  }

  // ---------------------------------------------------------------------------
  // Timestamps

  /** The reading of the clock `datetime.now()` returns. */
  datatype DateTime = DateTime(year: nat, month: nat, day: nat, hour: nat, minute: nat, second: nat)

  predicate ValidDateTime(t: DateTime) {
    1000 <= t.year <= 9999 && 1 <= t.month <= 12 && 1 <= t.day <= 31
    && t.hour < 24 && t.minute < 60 && t.second < 60
  }

  predicate IsDigit(c: char) {
    '0' <= c <= '9'
  }

  function DigitChar(d: nat): (c: char)
    requires d < 10
    ensures IsDigit(c)
  {
    ('0' as int + d) as char
  }

  /** The decimal digits of `n`. */
  function Decimal(n: nat): (r: string)
    ensures r != [] && forall k :: 0 <= k < |r| ==> IsDigit(r[k])
  {
    if n < 10 then [DigitChar(n)] else Decimal(n / 10) + [DigitChar(n % 10)]
  }

  /** `%0<width>d`. */
  function Padded(n: nat, width: nat): (r: string)
    ensures |r| >= width && forall k :: 0 <= k < |r| ==> IsDigit(r[k])
  {
    var d := Decimal(n);
    if |d| < width then seq(width - |d|, _ => '0') + d else d
  }

  /** `strftime("%Y%m%d_%H%M%S")`. */
  function Stamp(t: DateTime): (r: string)
    ensures |r| >= 15
  {
    Padded(t.year, 4) + Padded(t.month, 2) + Padded(t.day, 2) + "_"
    + Padded(t.hour, 2) + Padded(t.minute, 2) + Padded(t.second, 2)
  }

  lemma {:induction false} DecimalLength(n: nat, width: nat, bound: nat)
    requires width > 0 && n < bound && bound == Pow10(width)
    ensures |Decimal(n)| <= width
    decreases width
  {
    if n >= 10 {
      assert width > 1;
      DecimalLength(n / 10, width - 1, Pow10(width - 1));
    }
  }

  function Pow10(k: nat): (r: nat)
    ensures r >= 1
  {
    if k == 0 then 1 else 10 * Pow10(k - 1)
  }

  /**
   * A stamp of a valid date is fifteen characters, all digits but the `_`
   * at position 8; in particular it holds no `/` and no `.`.
   */
  lemma StampShape(t: DateTime)
    requires ValidDateTime(t)
    ensures |Stamp(t)| == 15
    ensures forall k :: 0 <= k < 15 ==> (k == 8 <==> Stamp(t)[k] == '_')
    ensures forall k :: 0 <= k < 15 && k != 8 ==> IsDigit(Stamp(t)[k])
  {
    assert Pow10(2) == 100 && Pow10(4) == 10000;
    DecimalLength(t.year, 4, Pow10(4));
    DecimalLength(t.month, 2, Pow10(2));
    DecimalLength(t.day, 2, Pow10(2));
    DecimalLength(t.hour, 2, Pow10(2));
    DecimalLength(t.minute, 2, Pow10(2));
    DecimalLength(t.second, 2, Pow10(2));
    var s := Stamp(t);
    var date := Padded(t.year, 4) + Padded(t.month, 2) + Padded(t.day, 2);
    var time := Padded(t.hour, 2) + Padded(t.minute, 2) + Padded(t.second, 2);
    assert s == date + "_" + time;
    assert |date| == 8 && |time| == 6;
    forall k | 0 <= k < 15
      ensures (k == 8 <==> s[k] == '_') && (k != 8 ==> IsDigit(s[k]))
    {
      if k < 8 {
        assert s[k] == date[k];
      } else if k > 8 {
        assert s[k] == time[k - 9];
      }
    }
  }

  /** Every character of a stamp is a digit or `_`, whatever the clock says. */
  lemma StampCharacters(t: DateTime)
    ensures forall k :: 0 <= k < |Stamp(t)| ==> IsDigit(Stamp(t)[k]) || Stamp(t)[k] == '_'
  {
    var s := Stamp(t);
    var a := Padded(t.year, 4) + Padded(t.month, 2) + Padded(t.day, 2);
    var b := Padded(t.hour, 2) + Padded(t.minute, 2) + Padded(t.second, 2);
    assert s == a + "_" + b;
    assert forall k :: 0 <= k < |a| ==> IsDigit(a[k]);
    assert forall k :: 0 <= k < |b| ==> IsDigit(b[k]);
    forall k | 0 <= k < |s|
      ensures IsDigit(s[k]) || s[k] == '_'
    {
      if k < |a| {
        assert s[k] == a[k];
      } else if k > |a| {
        assert s[k] == b[k - |a| - 1];
      }
    }
  }

  /** A stamp never holds a `/`, so it cannot move the output file to another directory. */
  lemma StampNoSlash(t: DateTime)
    ensures NoSlash(Stamp(t))
  {
    StampCharacters(t);
  }

  // ---------------------------------------------------------------------------
  // Split and join

  /** What `Split` returns is a directory part and a component without slashes. */
  lemma SplitShape(p: string)
    ensures IsDirPart(Split(p).0) && NoSlash(Split(p).1)
  {
  }

  /** Joining a slash-free name onto a directory part and splitting again gives both back. */
  lemma SplitJoin(dir: string, name: string)
    requires IsDirPart(dir) && name != [] && NoSlash(name)
    ensures Split(Join(dir, name)) == (dir, name)
  {
    var q := Join(dir, name);
    assert name[0] != '/';
    assert !StartsWith(name, "/");
    if dir == [] {
      assert q == name;
      assert LastIndexOf(q, '/') == -1;
    } else if EndsWith(dir, "/") {
      assert AllChars(dir, '/');
      assert q == dir + name;
      assert q[|dir| - 1] == '/';
      assert forall k :: |dir| <= k < |q| ==> q[k] == name[k - |dir|];
      assert LastIndexOf(q, '/') == |dir| - 1;
      assert q[..|dir|] == dir && q[|dir|..] == name;
    } else {
      assert dir[|dir| - 1] != '/';
      assert q == dir + "/" + name;
      assert q[|dir|] == '/';
      assert forall k :: |dir| < k < |q| ==> q[k] == name[k - |dir| - 1];
      assert LastIndexOf(q, '/') == |dir|;
      var head := q[..|dir| + 1];
      assert head == dir + "/";
      assert head[|dir| - 1] != '/';
      assert StripRightChar(head, '/') == StripRightChar(dir, '/');
      assert q[|dir| + 1..] == name;
    }
  }

  // ---------------------------------------------------------------------------
  // The output path of save_updated_excel

  /** `{stem}_updated_{stamp}.xlsx` for an input file named `fname`. */
  function OutputName(fname: string, stamp: string): string {
    SplitExt(fname).0 + "_updated_" + stamp + ".xlsx"
  }

  /** The file `save_updated_excel` writes: `OutputName` placed in the input's directory. */
  function OutputPath(path: string, stamp: string): (r: string)
    ensures EndsWith(r, OutputName(Split(path).1, stamp))
  {
    Join(Split(path).0, OutputName(Split(path).1, stamp))
  }

  /** The stem `splitext` takes from a slash-free name is slash-free. */
  lemma StemNoSlash(fname: string)
    requires NoSlash(fname)
    ensures NoSlash(SplitExt(fname).0)
  {
  }

  lemma ConcatNoSlash(a: string, b: string)
    requires NoSlash(a) && NoSlash(b)
    ensures NoSlash(a + b)
  {
    forall k | 0 <= k < |a + b| ensures (a + b)[k] != '/' {
      if k >= |a| { assert (a + b)[k] == b[k - |a|]; }
    }
  }

  /** The output name of a slash-free input name holds no slash. */
  lemma OutputNameNoSlash(fname: string, stamp: string)
    requires NoSlash(fname) && NoSlash(stamp)
    ensures NoSlash(OutputName(fname, stamp))
  {
    var stem := SplitExt(fname).0;
    StemNoSlash(fname);
    ConcatNoSlash(stem, "_updated_");
    ConcatNoSlash(stem + "_updated_", stamp);
    ConcatNoSlash(stem + "_updated_" + stamp, ".xlsx");
  }

  /**
   * The output file lies in the input's directory and is named after the
   * input's stem, whatever the input's extension.
   */
  lemma OutputPathPlacement(path: string, stamp: string)
    requires NoSlash(stamp)
    ensures Split(OutputPath(path, stamp)).0 == Split(path).0
    ensures Split(OutputPath(path, stamp)).1 == OutputName(Split(path).1, stamp)
  {
    SplitShape(path);
    OutputNameNoSlash(Split(path).1, stamp);
    SplitJoin(Split(path).0, OutputName(Split(path).1, stamp));
  }

  /** A path whose last component ends in `.xlsx` after a non-dot character has the extension `.xlsx`. */
  lemma XlsxExtension(q: string, u: nat)
    requires 6 <= |q| && u < |q| - 5 && q[|q| - 5..] == ".xlsx"
    requires q[u] != '.' && forall k :: u <= k < |q| ==> q[k] != '/'
    ensures SplitExt(q).1 == ".xlsx"
  {
    var n := |q|;
    assert q[n - 5] == '.';
    assert forall k :: n - 5 < k < n ==> q[k] == ".xlsx"[k - n + 5];
    assert LastIndexOf(q, '.') == n - 5;
    var sep := LastIndexOf(q, '/');
    assert sep < u;
    assert q[sep + 1..n - 5][u - sep - 1] == q[u];
  }

  /** In `{stem}_updated_{stamp}.xlsx`, no slash follows the `_` before "updated", and it ends in ".xlsx". */
  lemma UpdatedNameTail(stem: string, stamp: string)
    requires NoSlash(stem) && NoSlash(stamp)
    ensures var name := stem + "_updated_" + stamp + ".xlsx";
            && name[0] != '/' && name[|stem| + 8] == '_' && name[|name| - 5..] == ".xlsx"
            && forall j :: |stem| + 8 <= j < |name| ==> name[j] != '/'
  {
    var name := stem + "_updated_" + stamp + ".xlsx";
    forall j | |stem| + 8 <= j < |name|
      ensures name[j] != '/'
    {
      if j < |stem| + 9 { assert name[j] == "_updated_"[j - |stem|]; }
      else if j < |stem| + 9 + |stamp| { assert name[j] == stamp[j - |stem| - 9]; }
      else { assert name[j] == ".xlsx"[j - |stem| - 9 - |stamp|]; }
    }
  }

  /** Joining `{stem}_updated_{stamp}.xlsx` onto any directory gives a path with extension `.xlsx`. */
  lemma JoinedExtension(dir: string, stem: string, stamp: string)
    requires NoSlash(stem) && NoSlash(stamp)
    ensures SplitExt(Join(dir, stem + "_updated_" + stamp + ".xlsx")).1 == ".xlsx"
  {
    var name := stem + "_updated_" + stamp + ".xlsx";
    UpdatedNameTail(stem, stamp);
    var prefix := if dir == [] || EndsWith(dir, "/") then dir else dir + "/";
    var q := Join(dir, name);
    assert q == prefix + name;
    var u := |prefix| + |stem| + 8;
    assert q[u] == name[|stem| + 8];
    assert q[|q| - 5..] == name[|name| - 5..];
    forall k | u <= k < |q| ensures q[k] != '/' {
      assert q[k] == name[k - |prefix|];
    }
    XlsxExtension(q, u);
  }

  /** The output file's extension is always `.xlsx`, whatever the input's extension. */
  lemma OutputPathExtension(path: string, stamp: string)
    requires NoSlash(stamp)
    ensures SplitExt(OutputPath(path, stamp)).1 == ".xlsx"
  {
    SplitShape(path);
    StemNoSlash(Split(path).1);
    JoinedExtension(Split(path).0, SplitExt(Split(path).1).0, stamp);
  }
}
