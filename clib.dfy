/** The few C library routines whose results decide what the wrappers do:
    strtol (for the -t option), conversion of a long to an int, decimal
    formatting of an int ("%d"), and POSIX basename. */
module CLib {
  import opened Posix

  /** A C string: a character sequence that holds no NUL. */
  type CString = s: string | '\0' !in s

  const LONG_MIN: int := -0x8000_0000_0000_0000
  const LONG_MAX: int := 0x7FFF_FFFF_FFFF_FFFF
  const INT_MIN: int := -0x8000_0000
  const INT_MAX: int := 0x7FFF_FFFF

  predicate IsSpace(c: char)
  {
    c == ' ' || c == '\t' || c == '\n' || c == '\U{0B}' || c == '\U{0C}' || c == '\r'
  }

  predicate IsDigit(c: char)
  {
    '0' <= c <= '9'
  }

  predicate AllDigits(s: string)
  {
    forall k :: 0 <= k < |s| ==> IsDigit(s[k])
  }

  predicate AllSpaces(s: string)
  {
    forall k :: 0 <= k < |s| ==> IsSpace(s[k])
  }

  /** What may stand between the white space and the digits: nothing, or one sign. */
  predicate IsSign(sign: string)
  {
    sign == "" || sign == "+" || sign == "-"
  }

  /** The index of the first character at or after `i` that is not white space. */
  function SpacesEnd(s: string, i: nat): (e: nat)
    requires i <= |s|
    ensures i <= e <= |s|
    ensures forall k :: i <= k < e ==> IsSpace(s[k])
    ensures e < |s| ==> !IsSpace(s[e])
    decreases |s| - i
  {
    if i < |s| && IsSpace(s[i]) then SpacesEnd(s, i + 1) else i
  }

  /** The index of the first character at or after `i` that is not a digit. */
  function DigitsEnd(s: string, i: nat): (e: nat)
    requires i <= |s|
    ensures i <= e <= |s|
    ensures forall k :: i <= k < e ==> IsDigit(s[k])
    ensures e < |s| ==> !IsDigit(s[e])
    decreases |s| - i
  {
    if i < |s| && IsDigit(s[i]) then DigitsEnd(s, i + 1) else i
  }

  /** The number a run of decimal digits denotes. */
  function DigitsValue(d: string): nat
    requires AllDigits(d)
  {
    if d == [] then 0
    else DigitsValue(d[..|d| - 1]) * 10 + (d[|d| - 1] as int - '0' as int)
  }

  /** What strtol(s, &end, 10) yields: the value and the index `end` points at. */
  datatype Parsed = Parsed(value: int, end: nat)

  /** strtol clamps an out-of-range value to LONG_MIN or LONG_MAX. */
  function Saturate(v: int): (r: int)
    ensures LONG_MIN <= r <= LONG_MAX
    ensures LONG_MIN <= v <= LONG_MAX ==> r == v
    ensures v > LONG_MAX ==> r == LONG_MAX
    ensures v < LONG_MIN ==> r == LONG_MIN
  {
    if v > LONG_MAX then LONG_MAX else if v < LONG_MIN then LONG_MIN else v
  }

  /** strtol in base 10: leading white space, an optional sign, then
      digits. Without any digit nothing is consumed and the value is 0. */
  function StrToL(s: string): (r: Parsed)
    ensures r.end <= |s|
    ensures LONG_MIN <= r.value <= LONG_MAX
    ensures r.end == 0 ==> r.value == 0
    ensures r.end > 0 ==> IsDigit(s[r.end - 1])
    ensures r.end < |s| && r.end > 0 ==> !IsDigit(s[r.end])
  {
    var a := SpacesEnd(s, 0);
    var signed := a < |s| && (s[a] == '+' || s[a] == '-');
    var b := if signed then a + 1 else a;
    var e := DigitsEnd(s, b);
    if e == b then Parsed(0, 0)
    else
      var m: int := DigitsValue(s[b..e]);
      Parsed(Saturate(if signed && s[a] == '-' then -m else m), e)
  }

  /** Conversion of a long to a 32-bit int, keeping the low 32 bits (what
      GCC does for `int timeout = strtol(...)`). */
  function CInt(v: int): (r: int)
    ensures INT_MIN <= r <= INT_MAX
    ensures INT_MIN <= v <= INT_MAX ==> r == v
    ensures (v - r) % 0x1_0000_0000 == 0
  {
    (v - INT_MIN) % 0x1_0000_0000 + INT_MIN
  }

  /** The -t option of runlock and runalarm: accepted only when strtol
      consumes the whole argument; otherwise the program exits EX_DATAERR. */
  function ParseSeconds(arg: CString): (r: Checked<int>)
    ensures r.Ok? <==> StrToL(arg).end == |arg|
    ensures r.Abort? ==> r.code == EX_DATAERR
    ensures r.Ok? ==> r.value == CInt(StrToL(arg).value) && INT_MIN <= r.value <= INT_MAX
  {
    var p := StrToL(arg);
    if p.end == |arg| then Ok(CInt(p.value)) else Abort(EX_DATAERR)
  }

  function DigitChar(d: nat): (c: char)
    requires d < 10
    ensures IsDigit(c) && c as int - '0' as int == d
  {
    ('0' as int + d) as char
  }

  /** "%u": the decimal digits of n, most significant first. */
  function Decimal(n: nat): (s: string)
    ensures s != [] && AllDigits(s)
    decreases n
  {
    if n < 10 then [DigitChar(n)] else Decimal(n / 10) + [DigitChar(n % 10)]
  }

  /** "%d" */
  function FormatInt(i: int): (s: string)
    ensures s != [] && '\0' !in s
    ensures forall k :: 0 <= k < |s| ==> IsDigit(s[k]) || (k == 0 && s[k] == '-')
  {
    if i < 0 then "-" + Decimal(-i) else Decimal(i)
  }

  /** "%d" writes neither a quote nor a colon. */
  lemma FormatIntChars(i: int)
    ensures '"' !in FormatInt(i) && ':' !in FormatInt(i)
  {
  }

  lemma {:induction false} DecimalValue(n: nat)
    ensures DigitsValue(Decimal(n)) == n
    decreases n
  {
    if n >= 10 {
      var s := Decimal(n);
      assert s[..|s| - 1] == Decimal(n / 10);
      DecimalValue(n / 10);
    }
  }

  /** The digit run starting at i ends exactly at the first non-digit e. */
  lemma {:induction false} DigitsEndAt(s: string, i: nat, e: nat)
    requires i <= e <= |s|
    requires forall k :: i <= k < e ==> IsDigit(s[k])
    requires e < |s| ==> !IsDigit(s[e])
    ensures DigitsEnd(s, i) == e
    decreases e - i
  {
    if i < e {
      DigitsEndAt(s, i + 1, e);
    }
  }

  /** The white space starting at i ends exactly at the first other character e. */
  lemma {:induction false} SpacesEndAt(s: string, i: nat, e: nat)
    requires i <= e <= |s|
    requires forall k :: i <= k < e ==> IsSpace(s[k])
    requires e < |s| ==> !IsSpace(s[e])
    ensures SpacesEnd(s, i) == e
    decreases e - i
  {
    if i < e {
      SpacesEndAt(s, i + 1, e);
    }
  }

  /** strtol on any string that has a number: the white space is skipped,
      the sign taken, and the whole run of digits after it read, saturated
      to the range of a long; `end` points just past the digits. */
  lemma StrToLPrefix(w: string, sign: string, d: string, rest: string)
    requires AllSpaces(w) && IsSign(sign) && d != [] && AllDigits(d)
    requires rest == [] || !IsDigit(rest[0])
    ensures StrToL(w + sign + d + rest) ==
      Parsed(Saturate(if sign == "-" then -(DigitsValue(d) as int) else DigitsValue(d) as int), |w| + |sign| + |d|)
  {
    var s := w + sign + d + rest;
    var a, b := StrToLLayout(s, w, sign, d, rest);
    StrToLReadDigits(s, a, b, sign, d);
  }

  lemma StrToLReadDigits(s: string, a: nat, b: nat, sign: string, d: string)
    requires a <= |s| && SpacesEnd(s, 0) == a && b == a + |sign|
    requires b == if a < |s| && (s[a] == '+' || s[a] == '-') then a + 1 else a
    requires (b > a && s[a] == '-') == (sign == "-")
    requires d != [] && AllDigits(d) && b + |d| <= |s| && DigitsEnd(s, b) == b + |d| && s[b..b + |d|] == d
    ensures StrToL(s) ==
      Parsed(Saturate(if sign == "-" then -(DigitsValue(d) as int) else DigitsValue(d) as int), b + |d|)
  {
    StrToLRead(s, a, b, b + |d|);
  }

  /** Where strtol finds the white space, the sign and the digits of
      w + sign + d + rest. */
  lemma StrToLLayout(s: string, w: string, sign: string, d: string, rest: string) returns (a: nat, b: nat)
    requires s == w + sign + d + rest
    requires AllSpaces(w) && IsSign(sign) && d != [] && AllDigits(d)
    requires rest == [] || !IsDigit(rest[0])
    ensures a == |w| && b == a + |sign| && b + |d| <= |s|
    ensures SpacesEnd(s, 0) == a
    ensures b == if a < |s| && (s[a] == '+' || s[a] == '-') then a + 1 else a
    ensures (b > a && s[a] == '-') == (sign == "-")
    ensures DigitsEnd(s, b) == b + |d| && s[b..b + |d|] == d
  {
    var t := sign + d + rest;
    assert s == w + t;
    assert t[0] == if sign == "" then d[0] else sign[0];
    SpacesPrefix(w, t);
    a := |w|;
    assert s[a] == t[0];
    b := a + |sign|;
    assert s == (w + sign) + d + rest;
    DigitsPrefix(w + sign, d, rest);
  }

  /** strtol once the white space, the sign and the digits have been located. */
  lemma StrToLRead(s: string, a: nat, b: nat, e: nat)
    requires a <= |s| && SpacesEnd(s, 0) == a
    requires b == if a < |s| && (s[a] == '+' || s[a] == '-') then a + 1 else a
    requires b < e <= |s| && DigitsEnd(s, b) == e
    ensures StrToL(s) ==
      Parsed(Saturate(if b > a && s[a] == '-' then -(DigitsValue(s[b..e]) as int) else DigitsValue(s[b..e]) as int), e)
  {
  }

  lemma SpacesPrefix(w: string, t: string)
    requires AllSpaces(w) && (t == [] || !IsSpace(t[0]))
    ensures SpacesEnd(w + t, 0) == |w|
  {
    var s := w + t;
    assert forall k :: 0 <= k < |w| ==> s[k] == w[k];
    assert |w| < |s| ==> s[|w|] == t[0];
    SpacesEndAt(s, 0, |w|);
  }

  lemma DigitsPrefix(p: string, d: string, rest: string)
    requires AllDigits(d) && (rest == [] || !IsDigit(rest[0]))
    ensures DigitsEnd(p + d + rest, |p|) == |p| + |d|
    ensures (p + d + rest)[|p|..|p| + |d|] == d
  {
    var s := p + d + rest;
    assert forall k :: |p| <= k < |p| + |d| ==> s[k] == d[k - |p|];
    assert |p| + |d| < |s| ==> s[|p| + |d|] == rest[0];
    DigitsEndAt(s, |p|, |p| + |d|);
  }

  /** strtol on any string without a number: when no digit follows the
      white space and the optional sign, nothing is consumed and the value is 0. */
  lemma StrToLNoDigits(w: string, sign: string, rest: string)
    requires AllSpaces(w) && IsSign(sign)
    requires rest == [] || !IsDigit(rest[0])
    requires sign == "" && rest != [] ==> !IsSpace(rest[0]) && rest[0] != '+' && rest[0] != '-'
    ensures StrToL(w + sign + rest) == Parsed(0, 0)
  {
    var s := w + sign + rest;
    var b := |w| + |sign|;
    assert |w| < |s| ==> s[|w|] == if sign == "" then rest[0] else sign[0];
    SpacesEndAt(s, 0, |w|);
    assert b < |s| ==> s[b] == rest[0];
    DigitsEndAt(s, b, b);
  }

  /** strtol reads the decimal form of a number back to that number. */
  lemma {:induction false} StrToLDecimal(n: nat)
    requires n <= LONG_MAX
    ensures StrToL(Decimal(n)) == Parsed(n, |Decimal(n)|)
  {
    var s := Decimal(n);
    assert !IsSpace(s[0]) && s[0] != '+' && s[0] != '-';
    assert SpacesEnd(s, 0) == 0;
    DigitsEndAt(s, 0, |s|);
    assert s[0..|s|] == s;
    DecimalValue(n);
  }

  /** Every value that fits an int is accepted back from its decimal form. */
  lemma ParseSecondsDecimal(n: nat)
    requires n <= INT_MAX
    ensures ParseSeconds(Decimal(n)) == Ok(n)
  {
    StrToLDecimal(n);
  }

  /** A trailing unit such as "5s" makes the whole argument invalid. */
  lemma ParseSecondsRejectsSuffix(n: nat, c: char)
    requires n <= INT_MAX && !IsDigit(c) && c != '\0'
    ensures ParseSeconds(Decimal(n) + [c]) == Abort(EX_DATAERR)
  {
    var s := Decimal(n) + [c];
    assert s[0] == Decimal(n)[0];
    assert !IsSpace(s[0]) && s[0] != '+' && s[0] != '-';
    assert SpacesEnd(s, 0) == 0;
    DigitsEndAt(s, 0, |s| - 1);
  }

  /** An empty argument leaves endptr on the terminating NUL, so "-t ''"
      is accepted as 0. */
  lemma ParseSecondsEmpty()
    ensures ParseSeconds("") == Ok(0)
  {
  }

  /** "/a//b///" without its trailing slashes. */
  function StripTrailingSlashes(s: string): (r: string)
    ensures |r| <= |s| && r == s[..|r|]
    ensures r == [] || r[|r| - 1] != '/'
    ensures forall k :: |r| <= k < |s| ==> s[k] == '/'
  {
    if s != [] && s[|s| - 1] == '/' then StripTrailingSlashes(s[..|s| - 1]) else s
  }

  /** What follows the last '/' of s: the longest suffix without a slash. */
  function LastComponent(s: string): (r: string)
    ensures |r| <= |s| && r == s[|s| - |r|..]
    ensures '/' !in r
    ensures |r| < |s| ==> s[|s| - |r| - 1] == '/'
  {
    if s == [] || s[|s| - 1] == '/' then []
    else
      var p := LastComponent(s[..|s| - 1]);
      assert s[..|s| - 1][|s| - 1 - |p|..] == s[|s| - 1 - |p|..|s| - 1];
      p + [s[|s| - 1]]
  }

  /** POSIX basename (the one <libgen.h> selects): "." for the empty
      string, "/" for a string of slashes, otherwise the last component
      once trailing slashes are removed. */
  function Basename(path: string): (r: string)
    ensures r != []
    ensures r == "/" || '/' !in r
    ensures path == [] ==> r == "."
    ensures path != [] && (forall k :: 0 <= k < |path| ==> path[k] == '/') ==> r == "/"
    ensures '/' !in path && path != [] ==> r == path
    ensures StripTrailingSlashes(path) != [] ==> r == LastComponent(StripTrailingSlashes(path))
  {
    if path == [] then "."
    else
      var t := StripTrailingSlashes(path);
      if t == [] then "/"
      else
        var c := LastComponent(t);
        assert c != [] by { assert t[|t| - 1] != '/'; }
        c
  }

  /** A name without a slash, put under any directory, is that path's base name. */
  lemma BasenameJoin(dir: string, name: string)
    requires name != [] && '/' !in name
    ensures Basename(dir + "/" + name) == name
  {
    var s := dir + "/" + name;
    assert s[|s| - 1] == name[|name| - 1];
    assert StripTrailingSlashes(s) == s;
    var r := LastComponent(s);
    assert s[|s| - |name| - 1] == '/';
    assert s[|s| - |name|..] == name;
  }

  /** The argument as glibc's basename leaves it: a NUL written over the
      first of the trailing slashes, unless the path is nothing but slashes. */
  function BasenameResidue(path: string): (r: string)
    ensures Basename(r) == Basename(path)
    ensures r == path || (r != [] && |r| < |path| && r == path[..|r|] &&
                          forall k :: |r| <= k < |path| ==> path[k] == '/')
  {
    var t := StripTrailingSlashes(path);
    if t == [] then path
    else
      assert StripTrailingSlashes(t) == t;
      t
  }

  /** Slashes after a name that does not end in one are cut off: glibc's
      basename leaves exactly the name in the caller's buffer. */
  lemma {:induction false} ResidueDropsSlashes(name: string, slashes: string)
    requires name != [] && name[|name| - 1] != '/'
    requires forall k :: 0 <= k < |slashes| ==> slashes[k] == '/'
    ensures BasenameResidue(name + slashes) == name
    decreases |slashes|
  {
    if slashes != [] {
      var s := name + slashes;
      assert s[..|s| - 1] == name + slashes[..|slashes| - 1];
      ResidueDropsSlashes(name, slashes[..|slashes| - 1]);
      assert StripTrailingSlashes(s) == StripTrailingSlashes(name + slashes[..|slashes| - 1]);
    } else {
      assert name + slashes == name;
    }
  }
}
