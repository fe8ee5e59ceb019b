/**
 * The PHP built-in functions the core relies on, modelled on strings
 * (`seq<char>`): explode, implode, trim, strpos, strtolower, basename,
 * dirname, and the decimal rendering of an integer inside an
 * interpolated string.
 */
module Php {
  import opened Wrappers

  predicate EndsWith(s: string, suffix: string) {
    |suffix| <= |s| && s[|s| - |suffix|..] == suffix
  }

  /** `p` is not a prefix of `s`, and differs from it, because they differ at index `k`. */
  lemma DifferAt(p: string, s: string, k: nat)
    requires k < |p| && k < |s| && p[k] != s[k]
    ensures !(p <= s) && p != s
  {
  }

  lemma EndsWithAppend(s: string, suffix: string)
    ensures EndsWith(s + suffix, suffix)
  {
    assert (s + suffix)[|s|..] == suffix;
  }

  /** A string does not end with a suffix whose last character differs from its own. */
  lemma NotEndsWith(s: string, suffix: string)
    requires s != [] && suffix != [] && s[|s| - 1] != suffix[|suffix| - 1]
    ensures !EndsWith(s, suffix)
  {
    if |suffix| <= |s| {
      assert s[|s| - |suffix|..][|suffix| - 1] == s[|s| - 1];
    }
  }

  predicate IsDigit(c: char) { '0' <= c <= '9' }

  /** `"{$x}"` for a value that may be null or false: PHP prints those as "". */
  function Interpolate(x: Option<string>): string {
    match x
    case Some(s) => s
    case None => ""
  }

  // ---------------------------------------------------------------------
  // implode / explode

  /** implode($sep, $parts) */
  function Implode(sep: char, parts: seq<string>): string
  {
    if |parts| == 0 then ""
    else if |parts| == 1 then parts[0]
    else parts[0] + [sep] + Implode(sep, parts[1..])
  }

  /**
   * explode($sep, $s) for a one-character separator: the pieces of `s`
   * between the occurrences of `sep`, in order. There is always at least
   * one piece, and gluing the pieces back with `sep` gives `s`.
   */
  function Explode(sep: char, s: string): (parts: seq<string>)
    ensures |parts| >= 1
    ensures forall i :: 0 <= i < |parts| ==> sep !in parts[i]
    ensures Implode(sep, parts) == s
    decreases |s|
  {
    if s == [] then [[]]
    else
      var rest := Explode(sep, s[1..]);
      if s[0] == sep then
        assert ([[]] + rest)[1..] == rest;
        [[]] + rest
      else
        ImplodeConsFirst(sep, s[0], rest);
        [[s[0]] + rest[0]] + rest[1..]
  }

  lemma ImplodeConsFirst(sep: char, c: char, parts: seq<string>)
    requires |parts| >= 1
    ensures Implode(sep, [[c] + parts[0]] + parts[1..]) == [c] + Implode(sep, parts)
  {
    var qs := [[c] + parts[0]] + parts[1..];
    if |parts| > 1 {
      assert qs[1..] == parts[1..];
      assert Implode(sep, qs) == ([c] + parts[0]) + [sep] + Implode(sep, parts[1..]);
    }
  }

  /** A piece without the separator, the separator, then the rest: explode splits at that separator. */
  lemma {:induction false} ExplodeAppend(sep: char, x: string, y: string)
    requires sep !in x
    ensures Explode(sep, x + [sep] + y) == [x] + Explode(sep, y)
    decreases |x|
  {
    var s := x + [sep] + y;
    if x == [] {
      assert s[1..] == y;
    } else {
      assert s[1..] == x[1..] + [sep] + y;
      ExplodeAppend(sep, x[1..], y);
      assert [x[0]] + x[1..] == x;
    }
  }

  /** A string without the separator explodes to itself alone. */
  lemma {:induction false} ExplodeNoSeparator(sep: char, x: string)
    requires sep !in x
    ensures Explode(sep, x) == [x]
    decreases |x|
  {
    if x != [] {
      ExplodeNoSeparator(sep, x[1..]);
      assert [x[0]] + x[1..] == x;
    }
  }

  /** Two pieces without the separator, joined by it, explode into exactly those two pieces. */
  lemma ExplodePair(sep: char, x: string, y: string)
    requires sep !in x && sep !in y
    ensures Explode(sep, x + [sep] + y) == [x, y]
  {
    ExplodeAppend(sep, x, y);
    ExplodeNoSeparator(sep, y);
  }

  /** Round trip: pieces without the separator, imploded and exploded again, come back unchanged. */
  lemma {:induction false} ExplodeImplode(sep: char, parts: seq<string>)
    requires |parts| >= 1
    requires forall i :: 0 <= i < |parts| ==> sep !in parts[i]
    ensures Explode(sep, Implode(sep, parts)) == parts
    decreases |parts|
  {
    if |parts| == 1 {
      ExplodeNoSeparator(sep, parts[0]);
    } else {
      ExplodeImplode(sep, parts[1..]);
      ExplodeAppend(sep, parts[0], Implode(sep, parts[1..]));
      assert [parts[0]] + parts[1..] == parts;
    }
  }

  /**
   * The first piece of explode is the text before the first separator (all of
   * `s` when there is none); the remaining pieces are the explode of what
   * follows that separator.
   */
  lemma ExplodeFirst(sep: char, s: string)
    ensures var parts := Explode(sep, s); var f := parts[0];
      && |f| <= |s| && s[..|f|] == f
      && (|f| == |s| <==> sep !in s)
      && (|f| < |s| ==> s[|f|] == sep && parts[1..] == Explode(sep, s[|f| + 1..]))
      && (|f| == |s| ==> parts == [s])
  {
    var parts := Explode(sep, s);
    var f := parts[0];
    if |parts| == 1 {
      assert s == f;
    } else {
      assert s == f + [sep] + Implode(sep, parts[1..]);
      assert s[..|f|] == f;
      assert s[|f|] == sep;
      assert s[|f| + 1..] == Implode(sep, parts[1..]);
      ExplodeImplode(sep, parts[1..]);
    }
  }

  // ---------------------------------------------------------------------
  // trim

  /** The characters trim() strips by default: space, tab, newline, carriage return, NUL and vertical tab. */
  predicate IsTrimChar(c: char) {
    c == ' ' || c == '\t' || c == '\n' || c == '\r' || c as int == 0 || c as int == 11
  }

  /** rtrim($s) */
  function TrimRight(s: string): (r: string)
    ensures r <= s
    ensures r == [] || !IsTrimChar(r[|r| - 1])
    ensures forall i :: |r| <= i < |s| ==> IsTrimChar(s[i])
    decreases |s|
  {
    if |s| > 0 && IsTrimChar(s[|s| - 1]) then TrimRight(s[..|s| - 1]) else s
  }

  /** ltrim($s) */
  function TrimLeft(s: string): (r: string)
    ensures |r| <= |s| && r == s[|s| - |r|..]
    ensures r == [] || !IsTrimChar(r[0])
    ensures forall i :: 0 <= i < |s| - |r| ==> IsTrimChar(s[i])
    decreases |s|
  {
    if |s| > 0 && IsTrimChar(s[0]) then TrimLeft(s[1..]) else s
  }

  /** trim($s): `s` without its leading and trailing whitespace. */
  function Trim(s: string): (r: string)
    ensures r == [] || (!IsTrimChar(r[0]) && !IsTrimChar(r[|r| - 1]))
    ensures s == [] || (!IsTrimChar(s[0]) && !IsTrimChar(s[|s| - 1])) ==> r == s
  {
    var t := TrimRight(s);
    var r := TrimLeft(t);
    // States nothing, but without it the solver takes far longer on this function: keep it.
    assert r == [] ==> true;
    assert r != [] ==> r[|r| - 1] == t[|t| - 1];
    r
  }

  /**
   * trim() cuts only trim characters, and only at the two ends: its result
   * is a slice of `s` with trim characters before and after it.
   */
  lemma TrimCutsEdges(s: string)
    ensures exists k :: Trimmed(s, Trim(s), k)
  {
    var t := TrimRight(s);
    var r := TrimLeft(t);
    assert Trim(s) == r;
    TrimmedOf(s, t, r);
  }

  /**
   * `r` is `s` with `k` leading characters and some trailing characters cut
   * off, every one of them a trim character.
   */
  predicate Trimmed(s: string, r: string, k: int) {
    && 0 <= k && k + |r| <= |s| && r == s[k..k + |r|]
    && (forall i :: 0 <= i < k ==> IsTrimChar(s[i]))
    && (forall i :: k + |r| <= i < |s| ==> IsTrimChar(s[i]))
  }

  /** rtrim yields `t` and ltrim of that yields `r`: `r` is `s` trimmed at both ends. */
  lemma TrimmedOf(s: string, t: string, r: string)
    requires t <= s && forall i :: |t| <= i < |s| ==> IsTrimChar(s[i])
    requires |r| <= |t| && r == t[|t| - |r|..] && forall i :: 0 <= i < |t| - |r| ==> IsTrimChar(t[i])
    ensures Trimmed(s, r, |t| - |r|)
  {
    var k := |t| - |r|;
    assert t == s[..|t|];
    assert r == s[k..k + |r|];
    forall i | 0 <= i < k
      ensures IsTrimChar(s[i])
    {
      assert s[i] == t[i];
    }
  }

  // ---------------------------------------------------------------------
  // strpos

  /** `needle` occurs in `haystack` starting at index `j`. */
  predicate OccursAt(haystack: string, needle: string, j: nat) {
    j + |needle| <= |haystack| && haystack[j..j + |needle|] == needle
  }

  /** strpos($haystack, $needle): the first index at which `needle` occurs, None for PHP's false. */
  function StrPos(haystack: string, needle: string): (r: Option<nat>)
    ensures r.Some? ==> OccursAt(haystack, needle, r.value)
    ensures r.Some? ==> forall j: nat :: j < r.value ==> !OccursAt(haystack, needle, j)
    ensures r.None? ==> forall j: nat :: !OccursAt(haystack, needle, j)
  {
    StrPosFrom(haystack, needle, 0)
  }

  function StrPosFrom(haystack: string, needle: string, from: nat): (r: Option<nat>)
    requires from <= |haystack|
    ensures r.Some? ==> from <= r.value && OccursAt(haystack, needle, r.value)
    ensures r.Some? ==> forall j: nat :: from <= j < r.value ==> !OccursAt(haystack, needle, j)
    ensures r.None? ==> forall j: nat :: from <= j ==> !OccursAt(haystack, needle, j)
    decreases |haystack| - from
  {
    if from + |needle| > |haystack| then None
    else if haystack[from..from + |needle|] == needle then Some(from)
    else StrPosFrom(haystack, needle, from + 1)
  }

  /** `strpos($h, $n) === 0` holds exactly when `h` starts with `n`. */
  lemma StrPosZeroIffPrefix(haystack: string, needle: string)
    ensures StrPos(haystack, needle) == Some(0) <==> needle <= haystack
  {
    if needle <= haystack {
      assert OccursAt(haystack, needle, 0);
    }
  }

  // ---------------------------------------------------------------------
  // strtolower

  function LowerChar(c: char): char {
    if 'A' <= c <= 'Z' then (c as int - 'A' as int + 'a' as int) as char else c
  }

  /** strtolower($s): ASCII upper-case letters become lower-case, every other character stays. */
  function StrToLower(s: string): (r: string)
    ensures |r| == |s|
    ensures forall i :: 0 <= i < |s| ==> r[i] == LowerChar(s[i])
  {
    if s == [] then [] else [LowerChar(s[0])] + StrToLower(s[1..])
  }

  // ---------------------------------------------------------------------
  // integers in strings

  function DigitChar(d: nat): (c: char)
    requires d < 10
    ensures IsDigit(c)
  {
    ('0' as int + d) as char
  }

  /** The decimal digits PHP prints for a non-negative integer, `"{$n}"`. */
  function NatToString(n: nat): (r: string)
    ensures |r| >= 1
    ensures forall i :: 0 <= i < |r| ==> IsDigit(r[i])
    ensures r[0] == '0' ==> n == 0
    decreases n
  {
    if n < 10 then [DigitChar(n)] else NatToString(n / 10) + [DigitChar(n % 10)]
  }

  /** The number a string of decimal digits denotes. */
  function DigitsValue(s: string): nat
    requires forall i :: 0 <= i < |s| ==> IsDigit(s[i])
  {
    if s == [] then 0
    else
      assert IsDigit(s[|s| - 1]);
      DigitsValue(s[..|s| - 1]) * 10 + (s[|s| - 1] as int - '0' as int)
  }

  /** Reading the printed digits back gives the number printed. */
  lemma {:induction false} NatToStringValue(n: nat)
    ensures DigitsValue(NatToString(n)) == n
    decreases n
  {
    var r := NatToString(n);
    if n >= 10 {
      NatToStringValue(n / 10);
      assert r[..|r| - 1] == NatToString(n / 10);
    }
  }

  // ---------------------------------------------------------------------
  // paths

  predicate IsAbsolute(path: string) { |path| > 0 && path[0] == '/' }

  /** `s` without its trailing '/' characters. */
  function TrimTrailingSlashes(s: string): (r: string)
    ensures r <= s
    ensures r == [] || r[|r| - 1] != '/'
    ensures forall i :: |r| <= i < |s| ==> s[i] == '/'
    decreases |s|
  {
    if |s| > 0 && s[|s| - 1] == '/' then TrimTrailingSlashes(s[..|s| - 1]) else s
  }

  /** `s` without its trailing non-'/' characters: everything up to and including its last '/'. */
  function DropLastSegment(s: string): (r: string)
    ensures r <= s
    ensures r == [] || r[|r| - 1] == '/'
    ensures forall i :: |r| <= i < |s| ==> s[i] != '/'
    decreases |s|
  {
    if |s| > 0 && s[|s| - 1] != '/' then DropLastSegment(s[..|s| - 1]) else s
  }

  /** basename($path): the last segment of `path`, trailing slashes ignored. */
  function Basename(path: string): (r: string)
    ensures '/' !in r
    ensures var t := TrimTrailingSlashes(path); |r| <= |t| && t[|t| - |r|..] == r
    ensures var t := TrimTrailingSlashes(path); |r| < |t| ==> t[|t| - |r| - 1] == '/'
  {
    var t := TrimTrailingSlashes(path);
    LastSegment(t);
    t[|DropLastSegment(t)|..]
  }

  /** What follows the last '/' of `t` holds no '/', and a '/' comes just before it unless it is all of `t`. */
  lemma LastSegment(t: string)
    ensures var r := t[|DropLastSegment(t)|..];
      && '/' !in r && |r| <= |t| && t[|t| - |r|..] == r
      && (|r| < |t| ==> t[|t| - |r| - 1] == '/')
  {
    var u := DropLastSegment(t);
    var r := t[|u|..];
    assert forall i :: 0 <= i < |r| ==> r[i] == t[|u| + i];
  }

  /**
   * dirname($path), as PHP computes it: trailing slashes are ignored, the
   * last segment and the slashes before it are dropped; a path made only of
   * slashes, or one whose only segment hangs off the root, gives "/"; a
   * relative path with one segment gives ".".
   */
  function Dirname(path: string): (r: string)
    ensures IsAbsolute(path) ==> IsAbsolute(r) && r <= path
    ensures IsAbsolute(path) && path != "/" ==> |r| < |path|
    ensures IsCanonical(path) && path != "/" ==> path == (if r == "/" then "" else r) + "/" + Basename(path)
  {
    if path == "" then ""
    else
      var t := TrimTrailingSlashes(path);
      if t == "" then "/"
      else
        var u := DropLastSegment(t);
        if u == "" then "."
        else
          var v := TrimTrailingSlashes(u);
          assert IsAbsolute(path) ==> t[0] == '/';
          CanonicalSplit(path);
          if v == "" then "/" else v
  }

  /** An absolute path with no trailing '/' (unless it is "/") and no two '/' in a row. */
  predicate IsCanonical(path: string) {
    && IsAbsolute(path)
    && (path == "/" || path[|path| - 1] != '/')
    && forall i :: 0 <= i < |path| - 1 ==> !(path[i] == '/' && path[i + 1] == '/')
  }

  /**
   * A canonical path other than "/" is its parent directory without its
   * trailing slash, then '/', then its last segment.
   */
  lemma CanonicalSplit(path: string)
    ensures IsCanonical(path) && path != "/" ==> var u := DropLastSegment(path); var v := TrimTrailingSlashes(u);
      && TrimTrailingSlashes(path) == path
      && |u| >= 1 && path == u + path[|u|..]
      && (|u| == 1 ==> v == "" && u == "/")
      && (|u| > 1 ==> v == u[..|u| - 1] && v != "" && u == v + "/")
  {
    if !(IsCanonical(path) && path != "/") {
      return;
    }
    var u := DropLastSegment(path);
    assert path[0] == '/';
    assert |u| >= 1;
    assert path == u + path[|u|..];
    var w := u[..|u| - 1];
    assert u == w + "/";
    if |u| > 1 {
      assert w[|w| - 1] == path[|u| - 2];
      assert path[|u| - 1] == '/';
      assert path[|u| - 2] != '/';
      assert TrimTrailingSlashes(w) == w;
    }
  }

  lemma {:induction false} DropLastSegmentAppend(a: string, b: string)
    requires '/' !in b
    ensures DropLastSegment(a + b) == DropLastSegment(a)
    decreases |b|
  {
    if b != [] {
      var s := a + b;
      assert s[..|s| - 1] == a + b[..|b| - 1];
      DropLastSegmentAppend(a, b[..|b| - 1]);
    } else {
      assert a + b == a;
    }
  }

  /**
   * The path of a child entry: for a directory written without a trailing
   * slash (or "/" itself) and a non-empty name without '/', the dirname of
   * `dir/name` is `dir` and its basename is `name`.
   */
  lemma ChildPath(dir: string, name: string)
    requires IsAbsolute(dir) && (dir == "/" || dir[|dir| - 1] != '/')
    requires name != [] && '/' !in name
    ensures Dirname(dir + "/" + name) == dir
    ensures Basename(dir + "/" + name) == name
  {
    var u := dir + "/";
    var s := u + name;
    assert s[|s| - 1] == name[|name| - 1];
    assert TrimTrailingSlashes(s) == s;
    DropLastSegmentAppend(u, name);
    assert DropLastSegment(u) == u;
    assert u[..|u| - 1] == dir;
    assert TrimTrailingSlashes(u) == TrimTrailingSlashes(dir);
    if dir == "/" {
      assert TrimTrailingSlashes(dir) == "";
    }
    assert s[|u|..] == name;
  }
}
