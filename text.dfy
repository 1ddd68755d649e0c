/** String operations of Python's `str` that the core relies on, restricted
    to what the core uses: ASCII case mapping, the `str.isspace` character
    set, `split` on one character, `join`, `replace`, `strip`, `in`,
    `startswith`/`endswith`, `str(int)` and `int(str)`. */
module Text {
  import opened Outcomes

  predicate IsDigit(c: char) { '0' <= c <= '9' }
  predicate IsAsciiUpper(c: char) { 'A' <= c <= 'Z' }
  predicate IsAsciiLower(c: char) { 'a' <= c <= 'z' }
  predicate IsAsciiLetter(c: char) { IsAsciiUpper(c) || IsAsciiLower(c) }
  predicate IsAsciiAlnum(c: char) { IsAsciiLetter(c) || IsDigit(c) }

  /** `c.upper()` on ASCII; every other character is left alone. */
  function ToUpper(c: char): (u: char)
    ensures IsAsciiLetter(c) ==> IsAsciiUpper(u) && ToLower(u) == ToLower(c)
    ensures !IsAsciiLower(c) ==> u == c
  {
    if IsAsciiLower(c) then (c as int - 32) as char else c
  }

  /** `c.lower()` on ASCII; every other character is left alone. */
  function ToLower(c: char): (l: char)
    ensures IsAsciiLetter(c) ==> IsAsciiLower(l)
    ensures !IsAsciiUpper(c) ==> l == c
  {
    if IsAsciiUpper(c) then (c as int + 32) as char else c
  }

  /** `s.lower()` (ASCII letters only). */
  function Lower(s: string): (r: string)
    ensures |r| == |s|
    ensures forall i :: 0 <= i < |s| ==> r[i] == ToLower(s[i])
  {
    seq(|s|, i requires 0 <= i < |s| => ToLower(s[i]))
  }

  /** `s.capitalize()` (ASCII): first character upper-cased, the rest lower-cased. */
  function Capitalize(s: string): (r: string)
    ensures |r| == |s|
    ensures s != [] ==> r[0] == ToUpper(s[0])
    ensures forall i :: 0 < i < |s| ==> r[i] == ToLower(s[i])
  {
    if s == [] then [] else [ToUpper(s[0])] + Lower(s[1..])
  }

  /** The characters for which Python's `str.isspace()` holds; they are what
      `\s` matches in a `str` pattern and what `str.strip()` removes. */
  predicate IsPySpace(c: char) {
    var n := c as int;
    (9 <= n <= 13) || (28 <= n <= 32) || n == 0x85 || n == 0xA0 || n == 0x1680
    || (0x2000 <= n <= 0x200A) || n == 0x2028 || n == 0x2029 || n == 0x202F
    || n == 0x205F || n == 0x3000
  }

  /** `s.rstrip()` */
  function RStrip(s: string): (r: string)
    ensures |r| <= |s| && r == s[..|r|]
    ensures r == [] || !IsPySpace(r[|r| - 1])
    ensures forall i :: |r| <= i < |s| ==> IsPySpace(s[i])
  {
    if s != [] && IsPySpace(s[|s| - 1]) then RStrip(s[..|s| - 1]) else s
  }

  /** `s.lstrip()` */
  function LStrip(s: string): (r: string)
    ensures |r| <= |s| && r == s[|s| - |r|..]
    ensures r == [] || !IsPySpace(r[0])
    ensures forall i :: 0 <= i < |s| - |r| ==> IsPySpace(s[i])
  {
    if s != [] && IsPySpace(s[0]) then LStrip(s[1..]) else s
  }

  /** `s.strip()` */
  function Strip(s: string): string {
    RStrip(LStrip(s))
  }

  predicate StartsWith(s: string, p: string) { |p| <= |s| && s[..|p|] == p }
  predicate EndsWith(s: string, p: string) { |p| <= |s| && s[|s| - |p|..] == p }

  /** `t in s` for strings. */
  predicate Contains(s: string, t: string)
    decreases |s|
  {
    StartsWith(s, t) || (s != [] && Contains(s[1..], t))
  }

  /** A string that contains `t` contains every prefix of `t`. */
  lemma {:induction false} ContainsPrefix(s: string, t: string, u: string)
    requires Contains(s, t) && StartsWith(t, u)
    ensures Contains(s, u)
    decreases |s|
  {
    if StartsWith(s, t) {
      assert s[..|u|] == t[..|u|];
    } else {
      ContainsPrefix(s[1..], t, u);
    }
  }

  /** A string holding `t` at position `i` contains `t`. */
  lemma {:induction false} ContainsSuffix(s: string, i: nat, t: string)
    requires i + |t| <= |s| && s[i..][..|t|] == t
    ensures Contains(s, t)
    decreases i
  {
    if i > 0 {
      assert s[1..][i - 1..] == s[i..];
      ContainsSuffix(s[1..], i - 1, t);
    }
  }

  /** A string that does not contain `t` holds it at no position. */
  lemma {:induction false} NotContainsAt(s: string, i: nat, t: string)
    requires !Contains(s, t) && i + |t| <= |s|
    ensures s[i..][..|t|] != t
    decreases i
  {
    if i == 0 {
      assert s[0..] == s;
    } else {
      assert s[1..][i - 1..] == s[i..];
      NotContainsAt(s[1..], i - 1, t);
    }
  }

  /** `s.split(sep)` for a one-character separator: never empty; the pieces
      are the maximal separator-free stretches, empty ones included. */
  function Split(s: string, sep: char): (parts: seq<string>)
    ensures |parts| >= 1
    ensures forall k :: 0 <= k < |parts| ==> sep !in parts[k]
    ensures |parts| == 1 <==> sep !in s
  {
    if s == [] then [""]
    else
      var rest := Split(s[1..], sep);
      if s[0] == sep then [""] + rest else [[s[0]] + rest[0]] + rest[1..]
  }

  /** `sep.join(parts)` */
  function Join(parts: seq<string>, sep: string): string {
    if |parts| == 0 then ""
    else if |parts| == 1 then parts[0]
    else parts[0] + sep + Join(parts[1..], sep)
  }

  /** `''.join(parts)` */
  function Concat(parts: seq<string>): string {
    if parts == [] then "" else parts[0] + Concat(parts[1..])
  }

  /** Prepending to the first piece prepends to the joined string. */
  lemma JoinExtendHead(x: string, parts: seq<string>, sep: string)
    requires |parts| >= 1
    ensures Join([x + parts[0]] + parts[1..], sep) == x + Join(parts, sep)
  {
    var q := [x + parts[0]] + parts[1..];
    if |parts| > 1 {
      assert q[1..] == parts[1..];
    }
  }

  /** Joining the pieces of a split with the separator gives the string back. */
  lemma {:induction false} JoinSplit(s: string, sep: char)
    ensures Join(Split(s, sep), [sep]) == s
  {
    if s != [] {
      JoinSplit(s[1..], sep);
      var rest := Split(s[1..], sep);
      if s[0] == sep {
        assert ([""] + rest)[1..] == rest;
        assert s == [sep] + s[1..];
      } else {
        JoinExtendHead([s[0]], rest, [sep]);
        assert s == [s[0]] + s[1..];
      }
    }
  }

  /** Splitting a separator-free piece followed by the separator peels off
      that piece. */
  lemma {:induction false} SplitAfterPiece(a: string, sep: char, b: string)
    requires sep !in a
    ensures Split(a + [sep] + b, sep) == [a] + Split(b, sep)
  {
    if a == [] {
      assert a + [sep] + b == [sep] + b;
      assert ([sep] + b)[1..] == b;
    } else {
      var s := a + [sep] + b;
      assert s[0] == a[0] && s[1..] == a[1..] + [sep] + b;
      SplitAfterPiece(a[1..], sep, b);
      assert [a[0]] + a[1..] == a;
    }
  }

  /** Splitting a join of separator-free pieces gives the pieces back. */
  lemma {:induction false} SplitJoin(parts: seq<string>, sep: char)
    requires |parts| >= 1
    requires forall k :: 0 <= k < |parts| ==> sep !in parts[k]
    ensures Split(Join(parts, [sep]), sep) == parts
  {
    if |parts| == 1 {
      SplitWithoutSep(parts[0], sep);
    } else {
      SplitJoin(parts[1..], sep);
      SplitAfterPiece(parts[0], sep, Join(parts[1..], [sep]));
      assert [parts[0]] + parts[1..] == parts;
    }
  }

  /** A string without the separator splits into itself. */
  lemma {:induction false} SplitWithoutSep(s: string, sep: char)
    requires sep !in s
    ensures Split(s, sep) == [s]
  {
    if s != [] {
      SplitWithoutSep(s[1..], sep);
      assert [s[0]] + s[1..] == s;
    }
  }

  /** The last piece of `a + sep + b` is the last piece of `b`; when `b` has
      no separator it is `b` itself. */
  lemma {:induction false} SplitLastPiece(a: string, sep: char, b: string)
    requires sep !in b
    ensures var parts := Split(a + [sep] + b, sep); parts[|parts| - 1] == b
    decreases |a|
  {
    if a == [] {
      assert a + [sep] + b == [sep] + b;
      assert ([sep] + b)[1..] == b;
      SplitWithoutSep(b, sep);
    } else {
      var s := a + [sep] + b;
      assert s[1..] == a[1..] + [sep] + b;
      SplitLastPiece(a[1..], sep, b);
    }
  }

  lemma LowerIdempotent(s: string)
    ensures Lower(Lower(s)) == Lower(s)
  {
  }

  lemma LowerConcat(a: string, b: string)
    ensures Lower(a + b) == Lower(a) + Lower(b)
  {
  }

  /** `s.replace(a, b)` for single characters. */
  function ReplaceChar(s: string, a: char, b: char): (r: string)
    ensures |r| == |s|
    ensures forall i :: 0 <= i < |s| ==> r[i] == (if s[i] == a then b else s[i])
  {
    seq(|s|, i requires 0 <= i < |s| => if s[i] == a then b else s[i])
  }

  /** `s.replace(pat, rep)`: occurrences are found left to right and do not
      overlap; the scan resumes after each replaced occurrence. */
  function ReplaceAll(s: string, pat: string, rep: string): string
    requires |pat| > 0
    decreases |s|
  {
    if |s| < |pat| then s
    else if s[..|pat|] == pat then rep + ReplaceAll(s[|pat|..], pat, rep)
    else [s[0]] + ReplaceAll(s[1..], pat, rep)
  }

  /** With a one-character pattern and replacement, `replace` is a pointwise map. */
  lemma {:induction false} ReplaceAllSingleChar(s: string, a: char, b: char)
    ensures ReplaceAll(s, [a], [b]) == ReplaceChar(s, a, b)
    decreases |s|
  {
    if |s| >= 1 {
      ReplaceAllSingleChar(s[1..], a, b);
      assert ReplaceChar(s, a, b) == ReplaceChar(s[..1], a, b) + ReplaceChar(s[1..], a, b);
    }
  }

  /** Without an occurrence, `replace` changes nothing. */
  lemma {:induction false} NoMatchReplaceIdentity(s: string, pat: string, rep: string)
    requires |pat| > 0 && !Contains(s, pat)
    ensures ReplaceAll(s, pat, rep) == s
    decreases |s|
  {
    if |s| >= |pat| {
      assert !StartsWith(s, pat);
      assert s != [];
      NoMatchReplaceIdentity(s[1..], pat, rep);
    }
  }

  /** A stretch without the pattern's first character is copied through
      unchanged: no occurrence can start inside it. */
  lemma {:induction false} ReplaceAllSkip(a: string, t: string, pat: string, rep: string)
    requires |pat| > 0 && pat[0] !in a
    ensures ReplaceAll(a + t, pat, rep) == a + ReplaceAll(t, pat, rep)
    decreases |a|
  {
    if a != [] {
      var s := a + t;
      if |s| >= |pat| {
        assert a[0] in a;
        assert s[..|pat|][0] == a[0] != pat[0];
        assert s[1..] == a[1..] + t;
        ReplaceAllSkip(a[1..], t, pat, rep);
        assert [s[0]] + a[1..] == a;
      } else {
        assert ReplaceAll(t, pat, rep) == t;
      }
    } else {
      assert a + t == t;
    }
  }

  /** A stretch in which no occurrence of the pattern starts is copied
      through unchanged, even when an occurrence could reach past it. */
  lemma {:induction false} ReplaceAllNoMatchIn(a: string, t: string, pat: string, rep: string)
    requires |pat| > 0
    requires forall i :: 0 <= i < |a| ==> !StartsWith((a + t)[i..], pat)
    ensures ReplaceAll(a + t, pat, rep) == a + ReplaceAll(t, pat, rep)
    decreases |a|
  {
    if a != [] {
      var s := a + t;
      assert s[0..] == s;
      assert s[1..] == a[1..] + t;
      forall i | 0 <= i < |a[1..]|
        ensures !StartsWith((a[1..] + t)[i..], pat)
      {
        assert (a[1..] + t)[i..] == s[i + 1..];
      }
      ReplaceAllNoMatchIn(a[1..], t, pat, rep);
      assert [s[0]] + a[1..] == a;
    } else {
      assert a + t == t;
    }
  }

  /** Appending `ext` to a string without the pattern creates no occurrence
      across the seam when `ext`'s first character appears nowhere in the
      pattern after its head, so `replace` leaves the front as it is. */
  lemma ReplaceAllBeforeSeam(p: string, ext: string, pat: string, rep: string)
    requires |pat| > 0 && ext != [] && ext[0] !in pat[1..]
    requires !Contains(p, pat)
    ensures ReplaceAll(p + ext, pat, rep) == p + ReplaceAll(ext, pat, rep)
  {
    var s := p + ext;
    forall i | 0 <= i < |p|
      ensures !StartsWith(s[i..], pat)
    {
      if i + |pat| <= |p| {
        NotContainsAt(p, i, pat);
        assert p[i..][..|pat|] == s[i..][..|pat|];
      } else if |pat| <= |s| - i {
        var k := |p| - i;
        assert s[i..][..|pat|][k] == ext[0];
        assert pat[1..][k - 1] == pat[k];
      }
    }
    ReplaceAllNoMatchIn(p, ext, pat, rep);
  }

  /** An occurrence at the front is replaced and the scan resumes after it. */
  lemma ReplaceAllFront(pat: string, b: string, rep: string)
    requires |pat| > 0
    ensures ReplaceAll(pat + b, pat, rep) == rep + ReplaceAll(b, pat, rep)
  {
    assert (pat + b)[..|pat|] == pat;
    assert (pat + b)[|pat|..] == b;
  }

  /** A string without the pattern's first character is left as it is. */
  lemma ReplaceAllAbsent(s: string, pat: string, rep: string)
    requires |pat| > 0 && pat[0] !in s
    ensures ReplaceAll(s, pat, rep) == s
  {
    ReplaceAllSkip(s, "", pat, rep);
    assert s + "" == s;
  }

  /** A string lacking one of the pattern's characters holds no occurrence
      of it, so `replace` leaves it as it is. */
  lemma {:induction false} ReplaceAllMissingChar(s: string, pat: string, rep: string, j: nat)
    requires j < |pat| && pat[j] !in s
    ensures ReplaceAll(s, pat, rep) == s
    decreases |s|
  {
    if |s| >= |pat| {
      assert s[..|pat|][j] == s[j];
      assert s[j] in s;
      assert forall c :: c in s[1..] ==> c in s;
      ReplaceAllMissingChar(s[1..], pat, rep, j);
      assert [s[0]] + s[1..] == s;
    }
  }

  /** The characters `str.splitlines()` breaks at. */
  predicate IsLineBreak(c: char) {
    var n := c as int;
    (10 <= n <= 13) || (28 <= n <= 30) || n == 0x85 || n == 0x2028 || n == 0x2029
  }

  predicate NoLineBreak(s: string) {
    forall i :: 0 <= i < |s| ==> !IsLineBreak(s[i])
  }

  /** The index of the first line break, or the length when there is none. */
  function FirstBreak(s: string): (i: nat)
    ensures i <= |s| && NoLineBreak(s[..i])
    ensures i < |s| ==> IsLineBreak(s[i])
  {
    if s == [] || IsLineBreak(s[0]) then 0
    else
      var j := FirstBreak(s[1..]);
      assert s[..j + 1] == [s[0]] + s[1..][..j];
      j + 1
  }

  /** `s.splitlines()`: the stretches between line breaks, `\r\n` counting as
      one break; a break at the very end closes the last line instead of
      opening an empty one. */
  function SplitLines(s: string): (lines: seq<string>)
    ensures forall k :: 0 <= k < |lines| ==> NoLineBreak(lines[k])
    ensures lines == [] <==> s == []
    decreases |s|
  {
    if s == [] then []
    else
      var i := FirstBreak(s);
      if i == |s| then [s]
      else
        var width := if s[i] == '\r' && i + 1 < |s| && s[i + 1] == '\n' then 2 else 1;
        [s[..i]] + SplitLines(s[i + width..])
  }

  /** A line ended by `\n` is split off as it is. */
  lemma SplitLinesAfterLine(line: string, rest: string)
    requires NoLineBreak(line)
    ensures SplitLines(line + "\n" + rest) == [line] + SplitLines(rest)
  {
    var s := line + "\n" + rest;
    FirstBreakOfLine(line, "\n" + rest);
    assert s == line + ("\n" + rest);
    assert s[..|line|] == line;
    assert s[|line| + 1..] == rest;
  }

  /** The first break after a break-free stretch is where the stretch ends. */
  lemma {:induction false} FirstBreakOfLine(line: string, rest: string)
    requires NoLineBreak(line) && rest != [] && IsLineBreak(rest[0])
    ensures FirstBreak(line + rest) == |line|
    decreases |line|
  {
    if line != [] {
      assert (line + rest)[1..] == line[1..] + rest;
      FirstBreakOfLine(line[1..], rest);
    } else {
      assert line + rest == rest;
    }
  }

  /** A non-empty break-free string is a single line. */
  lemma SplitLinesOfLine(s: string)
    requires s != [] && NoLineBreak(s)
    ensures SplitLines(s) == [s]
  {
  }

  function DigitChar(d: nat): char
    requires d < 10
  {
    ['0', '1', '2', '3', '4', '5', '6', '7', '8', '9'][d]
  }

  /** `str(n)` for a natural number. */
  function NatToString(n: nat): (r: string)
    ensures |r| >= 1
    ensures forall i :: 0 <= i < |r| ==> IsDigit(r[i])
  {
    if n < 10 then [DigitChar(n)] else NatToString(n / 10) + [DigitChar(n % 10)]
  }

  /** `str(i)` for an integer. */
  function IntToString(i: int): string {
    if i < 0 then "-" + NatToString(-i) else NatToString(i)
  }

  /** The value of a non-empty string of decimal digits. */
  function DigitsValue(d: string): nat
    requires forall i :: 0 <= i < |d| ==> IsDigit(d[i])
  {
    if d == [] then 0
    else
      assert IsDigit(d[|d| - 1]);
      DigitsValue(d[..|d| - 1]) * 10 + (d[|d| - 1] as int - '0' as int)
  }

  predicate AllDigits(d: string) { |d| >= 1 && forall i :: 0 <= i < |d| ==> IsDigit(d[i]) }

  /** `int(t)` of an already stripped string: an optional sign and one or
      more ASCII digits. */
  function ParseSigned(t: string): (r: Option<int>)
    ensures r.Some? <==> t != [] && (AllDigits(t) || ((t[0] == '-' || t[0] == '+') && AllDigits(t[1..])))
  {
    if AllDigits(t) then Some(DigitsValue(t))
    else if t != [] && t[0] == '-' && AllDigits(t[1..]) then
      var v: int := DigitsValue(t[1..]);
      Some(-v)
    else if t != [] && t[0] == '+' && AllDigits(t[1..]) then Some(DigitsValue(t[1..]))
    else None
  }

  /** `int(s)`, approximated: surrounding whitespace, an optional sign and one
      or more ASCII digits. */
  function ParseInt(s: string): (r: Option<int>)
    ensures var t := Strip(s);
      r.Some? <==> t != [] && (AllDigits(t) || ((t[0] == '-' || t[0] == '+') && AllDigits(t[1..])))
    ensures r.Some? && r.value < 0 ==> Strip(s)[0] == '-'
  {
    ParseSigned(Strip(s))
  }

  lemma {:induction false} DigitsValueOfNat(n: nat)
    ensures DigitsValue(NatToString(n)) == n
  {
    if n >= 10 {
      DigitsValueOfNat(n / 10);
      var r := NatToString(n);
      assert r[..|r| - 1] == NatToString(n / 10);
    }
  }

  lemma StripOfNoSpace(s: string)
    requires forall i :: 0 <= i < |s| ==> !IsPySpace(s[i])
    ensures Strip(s) == s
  {
  }

  /** Digits hold no whitespace, so `strip` keeps them. */
  lemma StripOfDigits(d: string)
    requires AllDigits(d)
    ensures Strip(d) == d
  {
    assert forall k :: 0 <= k < |d| ==> !IsPySpace(d[k]) by {
      forall k | 0 <= k < |d| ensures !IsPySpace(d[k]) {
        assert IsDigit(d[k]);
      }
    }
    StripOfNoSpace(d);
  }

  /** A minus sign and digits hold no whitespace either. */
  lemma StripOfNegative(t: string)
    requires t != [] && t[0] == '-' && AllDigits(t[1..])
    ensures Strip(t) == t
  {
    assert forall k :: 0 <= k < |t| ==> !IsPySpace(t[k]) by {
      forall k | 0 <= k < |t| ensures !IsPySpace(t[k]) {
        if k > 0 { assert t[k] == t[1..][k - 1]; }
      }
    }
    StripOfNoSpace(t);
  }

  lemma ParseIntOfDigits(d: string)
    requires AllDigits(d)
    ensures ParseInt(d) == Some(DigitsValue(d))
  {
    StripOfDigits(d);
  }

  lemma ParseIntOfNegative(t: string)
    requires t != [] && t[0] == '-' && AllDigits(t[1..])
    ensures ParseInt(t) == Some(-(DigitsValue(t[1..]) as int))
  {
    StripOfNegative(t);
    assert !IsDigit(t[0]);
  }

  lemma ParseIntOfNegativeString(i: int)
    requires i < 0
    ensures Strip(IntToString(i)) == IntToString(i)
    ensures ParseInt(IntToString(i)) == Some(i)
  {
    var r := IntToString(i);
    assert r[0] == '-' && r[1..] == NatToString(-i);
    StripOfNegative(r);
    ParseIntOfNegative(r);
    DigitsValueOfNat(-i);
  }

  lemma ParseIntOfNatString(n: nat)
    ensures Strip(NatToString(n)) == NatToString(n)
    ensures ParseInt(NatToString(n)) == Some(n)
  {
    var d := NatToString(n);
    assert AllDigits(d);
    DigitsValueOfNat(n);
    assert DigitsValue(d) == n;
    StripOfDigits(d);
    ParseIntOfDigits(d);
  }

  /** `int(str(i)) == i`: the parser reads back what `str` prints, and
      stripping it changes nothing. */
  lemma ParseIntOfIntToString(i: int)
    ensures Strip(IntToString(i)) == IntToString(i)
    ensures ParseInt(IntToString(i)) == Some(i)
  {
    if i < 0 {
      ParseIntOfNegativeString(i);
    } else {
      assert IntToString(i) == NatToString(i);
      ParseIntOfNatString(i);
    }
  }
}
