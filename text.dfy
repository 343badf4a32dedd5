/**
 * String operations the application relies on from its languages' runtimes:
 * decimal rendering of counters, the last path segment of an object key,
 * the extension that Python's `os.path.splitext` splits off, `str.join`,
 * and JavaScript's `String.prototype.trim`.
 */
module Text {
  import opened Common

  predicate IsDigit(c: char) { '0' <= c <= '9' }

  predicate AllDigits(s: string) { forall i :: 0 <= i < |s| ==> IsDigit(s[i]) }

  function DigitValue(c: char): nat
    requires IsDigit(c)
  {
    c as int - '0' as int
  }

  function DigitChar(d: nat): (c: char)
    requires d < 10
    ensures IsDigit(c) && DigitValue(c) == d
  {
    ('0' as int + d) as char
  }

  /** Base-ten rendering of a natural number, as `str(n)` and `n.toString()` print it. */
  function Decimal(n: nat): (s: string)
    ensures 1 <= |s| && AllDigits(s)
    ensures |s| == 1 <==> n < 10
    ensures s[0] == '0' ==> n == 0
    decreases n
  {
    if n < 10 then [DigitChar(n)] else Decimal(n / 10) + [DigitChar(n % 10)]
  }

  /** Reads a string of digits back as a number (the reader of what Decimal writes). */
  function ParseDecimal(s: string): nat
    requires AllDigits(s)
  {
    if s == [] then 0 else ParseDecimal(s[..|s| - 1]) * 10 + DigitValue(s[|s| - 1])
  }

  lemma {:induction false} ParseDecimalOfDecimal(n: nat)
    ensures ParseDecimal(Decimal(n)) == n
  {
    var s := Decimal(n);
    if n >= 10 {
      assert s[..|s| - 1] == Decimal(n / 10);
      ParseDecimalOfDecimal(n / 10);
    }
  }

  /** Position of the last occurrence of `c` in `s`, like Python's `str.rfind` (None for -1). */
  function LastIndex(s: string, c: char): (r: Option<nat>)
    ensures r.None? <==> c !in s
    ensures r.Some? ==> r.value < |s| && s[r.value] == c && c !in s[r.value + 1..]
  {
    if s == [] then None
    else if s[|s| - 1] == c then Some(|s| - 1)
    else
      var r := LastIndex(s[..|s| - 1], c);
      assert s == s[..|s| - 1] + [s[|s| - 1]];
      r
  }

  /**
   * The text after the last '/', which is both `key.split('/')[-1]` and
   * `os.path.basename(key)` for POSIX paths: the longest suffix free of '/'.
   */
  function Basename(path: string): (b: string)
    ensures |b| <= |path| && b == path[|path| - |b|..]
    ensures '/' !in b
    ensures |b| < |path| ==> path[|path| - |b| - 1] == '/'
  {
    if path == [] || path[|path| - 1] == '/' then []
    else Basename(path[..|path| - 1]) + [path[|path| - 1]]
  }

  /** The length of everything up to and including the last '/'. */
  function DirLength(path: string): (n: nat)
    ensures n <= |path| && path[n..] == Basename(path)
  {
    |path| - |Basename(path)|
  }

  /**
   * The extension of one path segment: from its last '.' to the end, unless
   * every character before that dot is itself a dot (".env" has none).
   */
  function SegmentExtension(base: string): (ext: string)
    ensures |ext| <= |base| && ext == base[|base| - |ext|..]
    ensures ext != [] ==> ext[0] == '.' && '.' !in ext[1..]
    ensures ext != [] ==> exists k :: 0 <= k < |base| - |ext| && base[k] != '.'
  {
    match LastIndex(base, '.')
    case None => []
    case Some(d) =>
      if forall k :: 0 <= k < d ==> base[k] == '.' then []
      else
        assert base[d..][1..] == base[d + 1..];
        base[d..]
  }

  /** Some '.' of `s` at or after `from` follows a non-dot character at or after `from`. */
  predicate DotAfterOther(s: string, from: nat)
  {
    exists k, d :: from <= k < d < |s| && s[k] != '.' && s[d] == '.'
  }

  /** A segment has an extension exactly when some '.' in it follows a non-dot character. */
  lemma SegmentExtensionExists(base: string)
    ensures SegmentExtension(base) != [] <==> DotAfterOther(base, 0)
  {
    match LastIndex(base, '.')
    case None =>
      forall k, d | 0 <= k < d < |base| && base[k] != '.'
        ensures base[d] != '.'
      {
        assert base[d] in base;
      }
    case Some(d) =>
      if forall k :: 0 <= k < d ==> base[k] == '.' {
        forall k, e | 0 <= k < e < |base| && base[k] != '.'
          ensures base[e] != '.'
        {
          if e > d {
            NoDotAfterLast(base, d, e);
          }
        }
      } else {
        var k :| 0 <= k < d && base[k] != '.';
        assert 0 <= k < d < |base| && base[k] != '.' && base[d] == '.';
      }
  }

  lemma NoDotAfterLast(s: string, d: nat, e: nat)
    requires d < e < |s| && '.' !in s[d + 1..]
    ensures s[e] != '.'
  {
    assert s[e] == s[d + 1..][e - d - 1];
  }

  /**
   * The second half of Python's `os.path.splitext(path)`: the extension of the
   * last path segment, so that no '/' is ever part of it.
   */
  function Extension(path: string): (ext: string)
    ensures |ext| <= |path| && ext == path[|path| - |ext|..]
    ensures ext != [] ==> ext[0] == '.' && '.' !in ext[1..] && '/' !in ext
    ensures ext != [] ==>
      exists k :: DirLength(path) <= k < |path| - |ext| && path[k] != '.'
  {
    var n := DirLength(path);
    var ext := SegmentExtension(path[n..]);
    SegmentSuffix(path, n, ext);
    ext
  }

  /**
   * A path has an extension exactly when, within its last segment, some '.'
   * follows a non-dot character.
   */
  lemma ExtensionExists(path: string)
    ensures Extension(path) != [] <==> DotAfterOther(path, DirLength(path))
  {
    var n := DirLength(path);
    SegmentExtensionExists(path[n..]);
    DotAfterOtherShift(path, n);
  }

  /** Looking for a dot after a non-dot in the segment `s[n..]` is looking in `s` from `n`. */
  lemma DotAfterOtherShift(s: string, n: nat)
    requires n <= |s|
    ensures DotAfterOther(s[n..], 0) <==> DotAfterOther(s, n)
  {
    if DotAfterOther(s[n..], 0) {
      var k, d :| 0 <= k < d < |s[n..]| && s[n..][k] != '.' && s[n..][d] == '.';
      assert s[n + k] == s[n..][k] && s[n + d] == s[n..][d];
    }
    if DotAfterOther(s, n) {
      var k, d :| n <= k < d < |s| && s[k] != '.' && s[d] == '.';
      assert s[n..][k - n] == s[k] && s[n..][d - n] == s[d];
    }
  }

  /** A suffix of the segment `s[n..]` is a suffix of `s` with the same characters. */
  lemma SegmentSuffix(s: string, n: nat, t: string)
    requires n <= |s| && |t| <= |s| - n && t == s[n..][|s| - n - |t|..]
    requires t != [] ==> exists k :: 0 <= k < |s| - n - |t| && s[n..][k] != '.'
    ensures t == s[|s| - |t|..]
    ensures t != [] ==> exists k :: n <= k < |s| - |t| && s[k] != '.'
  {
    if t != [] {
      var k :| 0 <= k < |s| - n - |t| && s[n..][k] != '.';
      assert s[n + k] == s[n..][k];
    }
  }

  /** Python's `sep.join(parts)`. */
  function Join(sep: string, parts: seq<string>): string
  {
    if |parts| == 0 then []
    else if |parts| == 1 then parts[0]
    else Join(sep, parts[..|parts| - 1]) + sep + parts[|parts| - 1]
  }

  /** Joining one more part adds the separator and that part at the end. */
  lemma JoinSnoc(sep: string, parts: seq<string>, k: nat)
    requires 1 <= k < |parts|
    ensures Join(sep, parts[..k + 1]) == Join(sep, parts[..k]) + sep + parts[k]
  {
    assert parts[..k + 1][..k] == parts[..k];
  }

  /** The number of characters in all the parts together. */
  function TotalLength(parts: seq<string>): nat
  {
    if parts == [] then 0 else TotalLength(parts[..|parts| - 1]) + |parts[|parts| - 1]|
  }

  /** A join holds every part and one separator between each two neighbours. */
  lemma {:induction false} JoinLength(sep: string, parts: seq<string>)
    requires parts != []
    ensures |Join(sep, parts)| == TotalLength(parts) + |sep| * (|parts| - 1)
  {
    if |parts| > 1 {
      var pre := parts[..|parts| - 1];
      JoinLength(sep, pre);
      assert pre[..|pre| - 1] == parts[..|parts| - 2] by {
        assert parts[..|parts| - 1][..|parts| - 2] == parts[..|parts| - 2];
      }
    } else {
      assert parts[..0] == [];
    }
  }

  /** Some non-empty part makes the join non-empty. */
  lemma {:induction false} TotalLengthPositive(parts: seq<string>, i: nat)
    requires i < |parts| && parts[i] != []
    ensures TotalLength(parts) > 0
  {
    var n := |parts| - 1;
    if i < n {
      assert parts[..n][i] == parts[i];
      TotalLengthPositive(parts[..n], i);
    }
  }

  /** The characters JavaScript's `trim` removes: WhiteSpace and LineTerminator. */
  predicate IsJsWhitespace(c: char)
  {
    var k := c as int;
    k == 0x09 || k == 0x0A || k == 0x0B || k == 0x0C || k == 0x0D || k == 0x20
    || k == 0xA0 || k == 0x1680 || (0x2000 <= k <= 0x200A) || k == 0x2028
    || k == 0x2029 || k == 0x202F || k == 0x205F || k == 0x3000 || k == 0xFEFF
  }

  predicate IsBlank(s: string) { forall i :: 0 <= i < |s| ==> IsJsWhitespace(s[i]) }

  function TrimStart(s: string): (r: string)
    ensures |r| <= |s| && r == s[|s| - |r|..]
    ensures IsBlank(s[..|s| - |r|])
    ensures r != [] ==> !IsJsWhitespace(r[0])
  {
    if s != [] && IsJsWhitespace(s[0]) then TrimStart(s[1..]) else s
  }

  function TrimEnd(s: string): (r: string)
    ensures |r| <= |s| && r == s[..|r|]
    ensures IsBlank(s[|r|..])
    ensures r != [] ==> !IsJsWhitespace(r[|r| - 1])
  {
    if s != [] && IsJsWhitespace(s[|s| - 1]) then TrimEnd(s[..|s| - 1]) else s
  }

  /** JavaScript's `s.trim()`: empty exactly when `s` is all whitespace. */
  function Trim(s: string): (r: string)
    ensures r == [] <==> IsBlank(s)
    ensures r != [] ==> !IsJsWhitespace(r[0]) && !IsJsWhitespace(r[|r| - 1])
  {
    var t := TrimStart(s);
    TrimStartEmpty(s);
    if t == [] then []
    else
      TrimEndKeepsText(t);
      TrimEnd(t)
  }

  /** Trimming the front leaves nothing exactly when every character was whitespace. */
  lemma {:induction false} TrimStartEmpty(s: string)
    ensures TrimStart(s) == [] <==> IsBlank(s)
  {
    if s != [] && IsJsWhitespace(s[0]) {
      TrimStartEmpty(s[1..]);
      assert forall i :: 1 <= i < |s| ==> s[i] == s[1..][i - 1];
    }
  }

  /** Trimming the back of a text that starts with a visible character leaves that character. */
  lemma {:induction false} TrimEndKeepsText(t: string)
    requires t != [] && !IsJsWhitespace(t[0])
    ensures TrimEnd(t) != []
  {
    if |t| > 1 && IsJsWhitespace(t[|t| - 1]) {
      TrimEndKeepsText(t[..|t| - 1]);
    }
  }
}
