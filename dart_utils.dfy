/** Dart naming and type helpers: identifiers built from arbitrary names,
    Python type names mapped to Dart types, and `import` lines for a list of
    dependencies. */
module DartUtils {
  import opened Outcomes
  import opened Text

  // ---------------------------------------------------------------------
  // Identifier sanitizers
  // ---------------------------------------------------------------------

  /** Step 1: every character outside `[a-zA-Z0-9]` becomes `_`. */
  function Underscored(name: string): (r: string)
    ensures |r| == |name|
    ensures forall i :: 0 <= i < |r| ==> r[i] == (if IsAsciiAlnum(name[i]) then name[i] else '_')
  {
    seq(|name|, i requires 0 <= i < |name| => if IsAsciiAlnum(name[i]) then name[i] else '_')
  }

  /** Step 2: a leading digit gets a `_` in front. */
  function PrefixDigit(s: string): string {
    if s != [] && IsDigit(s[0]) then "_" + s else s
  }

  /** Step 3: the first character is upper-cased (class names) or
      lower-cased (variable names). */
  function CaseFirst(s: string, upperFirst: bool): (r: string)
    ensures |r| == |s|
    ensures s != [] ==> r[1..] == s[1..]
  {
    if s == [] then s
    else [if upperFirst then ToUpper(s[0]) else ToLower(s[0])] + s[1..]
  }

  /** `''.join(p.capitalize() for p in parts if p)` */
  function CapitalizedTail(parts: seq<string>): string {
    if parts == [] then ""
    else (if parts[0] == "" then "" else Capitalize(parts[0])) + CapitalizedTail(parts[1..])
  }

  /** Step 4: split at `_`; the first piece is kept as it is and every later
      non-empty piece is capitalised. */
  function CamelJoin(s: string): string {
    var parts := Split(s, '_');
    parts[0] + CapitalizedTail(parts[1..])
  }

  function SanitizeIdentifier(name: string, upperFirst: bool): string {
    CamelJoin(CaseFirst(PrefixDigit(Underscored(name)), upperFirst))
  }

  /** `sanitize_dart_class_name` */
  function SanitizeDartClassName(name: string): string {
    SanitizeIdentifier(name, true)
  }

  /** `sanitize_dart_variable_name` */
  function SanitizeDartVariableName(name: string): string {
    SanitizeIdentifier(name, false)
  }

  predicate AllAlnum(s: string) { forall i :: 0 <= i < |s| ==> IsAsciiAlnum(s[i]) }
  predicate AlnumOrUnderscore(s: string) { forall i :: 0 <= i < |s| ==> IsAsciiAlnum(s[i]) || s[i] == '_' }

  lemma {:induction false} SplitPiecesAlnum(s: string)
    requires AlnumOrUnderscore(s)
    ensures forall k :: 0 <= k < |Split(s, '_')| ==> AllAlnum(Split(s, '_')[k])
  {
    if s != [] {
      SplitPiecesAlnum(s[1..]);
      var rest := Split(s[1..], '_');
      if s[0] != '_' {
        var parts := Split(s, '_');
        assert parts == [[s[0]] + rest[0]] + rest[1..];
        assert AllAlnum(rest[0]);
        assert AllAlnum([s[0]] + rest[0]);
        forall k | 0 <= k < |parts| ensures AllAlnum(parts[k]) {
          if k > 0 { assert parts[k] == rest[k]; }
        }
      }
    }
  }

  lemma CapitalizeAlnum(p: string)
    requires AllAlnum(p)
    ensures AllAlnum(Capitalize(p))
  {
  }

  lemma {:induction false} CapitalizedTailAlnum(parts: seq<string>)
    requires forall k :: 0 <= k < |parts| ==> AllAlnum(parts[k])
    ensures AllAlnum(CapitalizedTail(parts))
  {
    if parts != [] {
      CapitalizedTailAlnum(parts[1..]);
      if parts[0] != "" { CapitalizeAlnum(parts[0]); }
    }
  }

  /** The first character of the capitalised pieces, if any, is an upper-case
      letter or a digit. */
  lemma {:induction false} CapitalizedTailHead(parts: seq<string>)
    requires forall k :: 0 <= k < |parts| ==> AllAlnum(parts[k])
    ensures var r := CapitalizedTail(parts); r == [] || IsAsciiUpper(r[0]) || IsDigit(r[0])
  {
    if parts != [] {
      CapitalizedTailHead(parts[1..]);
    }
  }

  lemma AfterStep3(name: string, upperFirst: bool)
    ensures AlnumOrUnderscore(CaseFirst(PrefixDigit(Underscored(name)), upperFirst))
  {
  }

  /** Every character of a sanitized identifier is an ASCII letter or digit:
      the `_` placeholders are all consumed by the split. */
  lemma SanitizedIsAlnum(name: string, upperFirst: bool)
    ensures AllAlnum(SanitizeIdentifier(name, upperFirst))
  {
    var s := CaseFirst(PrefixDigit(Underscored(name)), upperFirst);
    AfterStep3(name, upperFirst);
    SplitPiecesAlnum(s);
    var parts := Split(s, '_');
    assert AllAlnum(parts[0]);
    CapitalizedTailAlnum(parts[1..]);
  }

  /** An input starting with a letter keeps that letter first, upper-cased
      for a class name and lower-cased for a variable name. */
  lemma SanitizeLetterFirst(name: string, upperFirst: bool)
    requires name != [] && IsAsciiLetter(name[0])
    ensures var r := SanitizeIdentifier(name, upperFirst);
      r != [] && r[0] == (if upperFirst then ToUpper(name[0]) else ToLower(name[0]))
  {
    var s := CaseFirst(PrefixDigit(Underscored(name)), upperFirst);
    assert s[0] != '_';
    assert Split(s, '_')[0][0] == s[0];
  }

  /** An input starting with a digit yields an identifier starting with that
      digit: the `_` put in front by step 2 is removed again by the split. */
  lemma SanitizeStartsWithDigit(name: string, upperFirst: bool)
    requires name != [] && IsDigit(name[0])
    ensures var r := SanitizeIdentifier(name, upperFirst); r != [] && r[0] == name[0]
  {
    var u := Underscored(name);
    var s := CaseFirst(PrefixDigit(u), upperFirst);
    assert s == "_" + u;
    assert s[1..] == u;
    var parts := Split(s, '_');
    assert parts == [""] + Split(u, '_');
    assert Split(u, '_')[0][0] == u[0];
    assert parts[1..] == Split(u, '_');
  }

  /** A class-name output starts with an upper-case letter or a digit. */
  lemma {:induction false} ClassNameHead(name: string)
    ensures var r := SanitizeDartClassName(name); r == [] || IsAsciiUpper(r[0]) || IsDigit(r[0])
  {
    var s := CaseFirst(PrefixDigit(Underscored(name)), true);
    AfterStep3(name, true);
    SplitPiecesAlnum(s);
    var parts := Split(s, '_');
    CapitalizedTailHead(parts[1..]);
    if parts[0] != [] {
      assert parts[0][0] == s[0];
      assert s[0] != '_';
    }
  }

  /** An alphanumeric string starting with an upper-case letter is left
      unchanged by the class-name sanitizer. */
  lemma ClassNameFixpoint(s: string)
    requires AllAlnum(s) && (s == [] || IsAsciiUpper(s[0]))
    ensures SanitizeDartClassName(s) == s
  {
    assert CaseFirst(PrefixDigit(Underscored(s)), true) == s by {
      assert Underscored(s) == s;
      assert s != [] ==> !IsDigit(s[0]);
      assert s != [] ==> ToUpper(s[0]) == s[0];
      assert CaseFirst(s, true) == s;
    }
    assert Split(s, '_') == [s] by {
      assert '_' !in s;
      SplitWithoutSep(s, '_');
    }
    assert [s][1..] == [];
  }

  /** Sanitizing a class name twice gives the same result as once, unless the
      first result starts with a digit. */
  lemma ClassNameIdempotent(name: string)
    requires var r := SanitizeDartClassName(name); r == [] || !IsDigit(r[0])
    ensures SanitizeDartClassName(SanitizeDartClassName(name)) == SanitizeDartClassName(name)
  {
    SanitizedIsAlnum(name, true);
    ClassNameHead(name);
    ClassNameFixpoint(SanitizeDartClassName(name));
  }

  /** A digit-led result is not a fixpoint: `"9a_b"` becomes `"9aB"`, which
      then becomes `"9ab"`. */
  lemma ClassNameNotIdempotentExample(name: string)
    requires name == "9a_b"
    ensures SanitizeDartClassName(name) == "9aB"
    ensures SanitizeDartClassName(SanitizeDartClassName(name)) == "9ab" != SanitizeDartClassName(name)
  {
    FirstRunOf9a_b(name);
    assert Capitalize("9a") == "9a";
    assert Capitalize("b") == "B";
    SecondRunOf9aB(SanitizeDartClassName(name));
  }

  /** Steps 1 to 3 on a digit-led input whose other characters are
      letters, digits or `_`: only the `_` of step 2 is added. */
  lemma DigitLedFront(w: string)
    requires w != [] && IsDigit(w[0]) && AlnumOrUnderscore(w)
    ensures CaseFirst(PrefixDigit(Underscored(w)), true) == "_" + w
  {
    assert Underscored(w) == w;
    assert ToUpper('_') == '_';
  }

  /** A digit-led alphanumeric word is capitalised: the `_` put in front by
      step 2 only produces an empty first piece. */
  lemma DigitLedWord(w: string)
    requires w != [] && IsDigit(w[0]) && AllAlnum(w)
    ensures SanitizeDartClassName(w) == Capitalize(w)
  {
    var s := "_" + w;
    DigitLedFront(w);
    assert Split(s, '_') == ["", w] by {
      SplitWithoutSep(w, '_');
      SplitAfterPiece("", '_', w);
      assert "" + ['_'] + w == s;
    }
    assert CamelJoin(s) == CapitalizedTail([w]);
    assert CapitalizedTail([w]) == Capitalize(w) + CapitalizedTail([]);
  }

  /** A digit-led alphanumeric word and another one joined by `_` are each
      capitalised. */
  lemma DigitLedPair(a: string, b: string)
    requires a != [] && IsDigit(a[0]) && AllAlnum(a)
    requires b != [] && AllAlnum(b)
    ensures SanitizeDartClassName(a + "_" + b) == Capitalize(a) + Capitalize(b)
  {
    var w := a + "_" + b;
    var s := "_" + w;
    assert CaseFirst(PrefixDigit(Underscored(w)), true) == s by {
      assert w[0] == a[0];
      assert AlnumOrUnderscore(w) by {
        forall i | 0 <= i < |w| ensures IsAsciiAlnum(w[i]) || w[i] == '_' {
          if i < |a| { assert w[i] == a[i]; }
          else if i > |a| { assert w[i] == b[i - |a| - 1]; }
        }
      }
      DigitLedFront(w);
    }
    assert Split(s, '_') == ["", a, b] by {
      SplitWithoutSep(b, '_');
      SplitAfterPiece(a, '_', b);
      assert a + ['_'] + b == w;
      SplitAfterPiece("", '_', w);
      assert "" + ['_'] + w == s;
    }
    assert CamelJoin(s) == CapitalizedTail([a, b]);
    assert CapitalizedTail([a, b]) == Capitalize(a) + CapitalizedTail([b]) by {
      assert [a, b][1..] == [b];
    }
    assert CapitalizedTail([b]) == Capitalize(b) + CapitalizedTail([]);
  }

  lemma FirstRunOf9a_b(name: string)
    requires name == "9a" + "_" + "b"
    ensures SanitizeDartClassName(name) == Capitalize("9a") + Capitalize("b")
  {
    DigitLedPair("9a", "b");
  }

  lemma SecondRunOf9aB(w: string)
    requires w == "9aB"
    ensures SanitizeDartClassName(w) == "9ab"
  {
    DigitLedWord(w);
  }

  /** A Dart identifier made of ASCII letters, digits and `_`: non-empty and
      not starting with a digit. */
  predicate IsDartIdentifier(s: string) {
    s != [] && !IsDigit(s[0]) && AlnumOrUnderscore(s)
  }

  /** The class-name sanitizer with the step-2 underscore kept in front of a
      leading digit, as the comment at that step intends. */
  function SanitizeDartClassNameKeepingPrefix(name: string): string {
    var r := SanitizeDartClassName(name);
    if r != [] && IsDigit(r[0]) then "_" + r else r
  }

  /** With the prefix kept, every non-empty result is a Dart identifier, and
      digit-led names get exactly one `_` in front of what the written
      sanitizer returns. */
  lemma KeepingPrefixIsIdentifier(name: string)
    ensures var r := SanitizeDartClassNameKeepingPrefix(name); r == [] || IsDartIdentifier(r)
    ensures name != [] && IsDigit(name[0]) ==>
      SanitizeDartClassNameKeepingPrefix(name) == "_" + SanitizeDartClassName(name)
  {
    var r0 := SanitizeDartClassName(name);
    assert AllAlnum(r0) by { SanitizedIsAlnum(name, true); }
    if name != [] && IsDigit(name[0]) {
      assert r0 != [] && r0[0] == name[0] by { SanitizeStartsWithDigit(name, true); }
      var r := "_" + r0;
      assert r[1..] == r0;
    }
  }

  // ---------------------------------------------------------------------
  // Python type names to Dart types
  // ---------------------------------------------------------------------

  const TypeTable: map<string, string> := map[
    "str" := "String",
    "int" := "int",
    "float" := "double",
    "bool" := "bool",
    "list" := "List",
    "dict" := "Map<String, dynamic>",
    "None" := "void",
    "any" := "dynamic",
    "datetime" := "DateTime",
    "date" := "DateTime"
  ]

  /** A character of the regular-expression class `\w`, restricted to ASCII. */
  predicate IsWordChar(c: char) { IsAsciiAlnum(c) || c == '_' }

  /** The end of the longest run of word characters starting at `i`. */
  function WordEnd(s: string, i: nat): (j: nat)
    requires i <= |s|
    ensures i <= j <= |s|
    ensures forall k :: i <= k < j ==> IsWordChar(s[k])
    ensures j == |s| || !IsWordChar(s[j])
    decreases |s| - i
  {
    if i < |s| && IsWordChar(s[i]) then WordEnd(s, i + 1) else i
  }

  /** The end of the longest run of `\s` characters starting at `i`. */
  function SpaceEnd(s: string, i: nat): (j: nat)
    requires i <= |s|
    ensures i <= j <= |s|
    ensures forall k :: i <= k < j ==> IsPySpace(s[k])
    ensures j == |s| || !IsPySpace(s[j])
    decreases |s| - i
  {
    if i < |s| && IsPySpace(s[i]) then SpaceEnd(s, i + 1) else i
  }

  /** `re.match(r'list\[(\w+)\]', l)`: the captured element type. */
  function ListMatch(l: string): (r: Option<string>)
    ensures r.Some? ==> 0 < |r.value| < |l|
  {
    if StartsWith(l, "list[") then
      var j := WordEnd(l, 5);
      if j > 5 && j < |l| && l[j] == ']' then Some(l[5..j]) else None
    else None
  }

  /** `re.match(r'dict\[(\w+),\s*(\w+)\]', l)`: the captured key and value types. */
  function DictMatch(l: string): (r: Option<(string, string)>)
    ensures r.Some? ==> 0 < |r.value.0| < |l| && 0 < |r.value.1| < |l|
  {
    if StartsWith(l, "dict[") then
      var j := WordEnd(l, 5);
      if j > 5 && j < |l| && l[j] == ',' then
        var k := SpaceEnd(l, j + 1);
        var m := WordEnd(l, k);
        if m > k && m < |l| && l[m] == ']' then Some((l[5..j], l[k..m])) else None
      else None
    else None
  }

  /** `dart_type_from_python` */
  function DartTypeFromPython(pyType: string): string
    decreases |pyType|
  {
    var l := Lower(pyType);
    match ListMatch(l)
    case Some(inner) => "List<" + DartTypeFromPython(inner) + ">"
    case None =>
      match DictMatch(l)
      case Some((k, v)) => "Map<" + DartTypeFromPython(k) + ", " + DartTypeFromPython(v) + ">"
      case None => if l in TypeTable then TypeTable[l] else "dynamic"
  }

  /** No input maps to `"void"`: the table's `"None"` key is never consulted,
      because the lookup key is lower-cased first. */
  lemma {:induction false} NeverVoid(pyType: string)
    ensures DartTypeFromPython(pyType) != "void"
  {
    var l := Lower(pyType);
    if ListMatch(l).None? && DictMatch(l).None? {
      assert |l| == 0 || l[0] == ToLower(pyType[0]);
    } else if ListMatch(l).Some? {
      assert DartTypeFromPython(pyType)[0] == 'L';
    } else {
      assert DartTypeFromPython(pyType)[0] == 'M';
    }
  }

  /** `"None"` becomes `"dynamic"`, not `"void"`. */
  lemma NoneIsDynamic()
    ensures DartTypeFromPython("None") == "dynamic"
  {
    assert Lower("None") == "none";
    assert ListMatch("none").None?;
    assert DictMatch("none").None?;
  }

  /** Lower-case ASCII letters only. */
  predicate LowerLetters(s: string) {
    forall i :: 0 <= i < |s| ==> IsAsciiLower(s[i])
  }

  lemma LowerLettersPlain(s: string)
    requires LowerLetters(s)
    ensures Lower(s) == s && '[' !in s
  {
    LowerOfLowerCase(s);
  }

  /** A lower-case key made of letters is looked up in the table. */
  lemma TableEntry(l: string)
    requires l in TypeTable && LowerLetters(l)
    ensures DartTypeFromPython(l) == TypeTable[l]
  {
    LowerLettersPlain(l);
    if |l| >= 5 {
      assert l[..5][4] == l[4] != '[';
    }
  }

  /** Every table entry other than `"None"` is found under its own
      (lower-case) name. */
  lemma TableLookups(t: string)
    requires t in TypeTable && t != "None"
    ensures DartTypeFromPython(t) == TypeTable[t]
  {
    assert LowerLetters(t);
    TableEntry(t);
  }

  lemma LowerOfLowerCase(s: string)
    requires forall i :: 0 <= i < |s| ==> !IsAsciiUpper(s[i])
    ensures Lower(s) == s
  {
  }

  /** The mapping only depends on the lower-cased input. */
  lemma DartTypeOfLower(pyType: string)
    ensures DartTypeFromPython(Lower(pyType)) == DartTypeFromPython(pyType)
  {
    LowerIdempotent(pyType);
  }

  lemma WordEndOfWord(s: string, i: nat, w: string, rest: string)
    requires i + |w| <= |s| && s[i..i + |w|] == w
    requires forall k :: 0 <= k < |w| ==> IsWordChar(w[k])
    requires i + |w| < |s| && !IsWordChar(s[i + |w|])
    ensures WordEnd(s, i) == i + |w|
    decreases |w|
  {
    if |w| > 0 {
      assert s[i] == w[0];
      assert s[i + 1..i + 1 + |w[1..]|] == w[1..];
      WordEndOfWord(s, i + 1, w[1..], rest);
    }
  }

  lemma SpaceEndOfSpaces(s: string, i: nat, ws: string)
    requires i + |ws| <= |s| && s[i..i + |ws|] == ws
    requires forall k :: 0 <= k < |ws| ==> IsPySpace(ws[k])
    requires i + |ws| < |s| && !IsPySpace(s[i + |ws|])
    ensures SpaceEnd(s, i) == i + |ws|
    decreases |ws|
  {
    if |ws| > 0 {
      assert s[i] == ws[0];
      assert s[i + 1..i + 1 + |ws[1..]|] == ws[1..];
      SpaceEndOfSpaces(s, i + 1, ws[1..]);
    }
  }

  lemma LowerWord(w: string)
    requires forall k :: 0 <= k < |w| ==> IsWordChar(w[k])
    ensures forall k :: 0 <= k < |Lower(w)| ==> IsWordChar(Lower(w)[k])
  {
  }

  lemma ListMatchShape(w: string, rest: string)
    requires w != [] && forall k :: 0 <= k < |w| ==> IsWordChar(w[k])
    ensures ListMatch("list[" + w + "]" + rest) == Some(w)
  {
    var l := "list[" + w + "]" + rest;
    assert l[..5] == "list[";
    assert l[5..5 + |w|] == w;
    assert l[5 + |w|] == ']';
    WordEndOfWord(l, 5, w, []);
  }

  /** Where the middle piece of a three-way concatenation sits. */
  lemma Middle(x: string, y: string, z: string)
    ensures (x + y + z)[..|x|] == x
    ensures (x + y + z)[|x|..|x| + |y|] == y
    ensures z != [] ==> (x + y + z)[|x| + |y|] == z[0]
  {
  }

  lemma DictMatchAt(l: string, k: string, ws: string, v: string)
    requires k != [] && forall i :: 0 <= i < |k| ==> IsWordChar(k[i])
    requires v != [] && forall i :: 0 <= i < |v| ==> IsWordChar(v[i])
    requires forall i :: 0 <= i < |ws| ==> IsPySpace(ws[i])
    requires |l| > 6 + |k| + |ws| + |v|
    requires l[..5] == "dict[" && l[5..5 + |k|] == k && l[5 + |k|] == ','
    requires l[6 + |k|..6 + |k| + |ws|] == ws
    requires l[6 + |k| + |ws|..6 + |k| + |ws| + |v|] == v
    requires l[6 + |k| + |ws| + |v|] == ']'
    ensures DictMatch(l) == Some((k, v))
  {
    var j := 5 + |k|;
    WordEndOfWord(l, 5, k, []);
    var p := j + 1 + |ws|;
    assert l[p] == v[0];
    SpaceEndOfSpaces(l, j + 1, ws);
    WordEndOfWord(l, p, v, []);
  }

  lemma DictMatchShape(k: string, ws: string, v: string, rest: string)
    requires k != [] && forall i :: 0 <= i < |k| ==> IsWordChar(k[i])
    requires v != [] && forall i :: 0 <= i < |v| ==> IsWordChar(v[i])
    requires forall i :: 0 <= i < |ws| ==> IsPySpace(ws[i])
    ensures DictMatch("dict[" + k + "," + ws + v + "]" + rest) == Some((k, v))
  {
    var l := "dict[" + k + "," + ws + v + "]" + rest;
    var n := 6 + |k| + |ws| + |v|;
    assert |l| > n;
    assert l[..5] == "dict[" by { Middle("dict[", [], k + "," + ws + v + "]" + rest); }
    assert l[5..5 + |k|] == k by { Middle("dict[", k, "," + ws + v + "]" + rest); }
    assert l[5 + |k|] == ',' by { Middle("dict[", k, "," + ws + v + "]" + rest); }
    assert l[6 + |k|..6 + |k| + |ws|] == ws by { Middle("dict[" + k + ",", ws, v + "]" + rest); }
    assert l[6 + |k| + |ws|..n] == v by { Middle("dict[" + k + "," + ws, v, "]" + rest); }
    assert l[n] == ']' by { Middle("dict[" + k + "," + ws + v, "]", rest); }
    DictMatchAt(l, k, ws, v);
  }

  lemma LowerListShape(w: string, rest: string)
    ensures Lower("list[" + w + "]" + rest) == "list[" + Lower(w) + "]" + Lower(rest)
  {
    LowerConcat("list[" + w + "]", rest);
    LowerConcat("list[" + w, "]");
    LowerConcat("list[", w);
    LowerOfLowerCase("list[");
  }

  /** `list[T]` (in any letter case, with anything after the `]`) becomes
      `List<f(T)>` for a word `T`. */
  lemma ListType(w: string, rest: string)
    requires w != [] && forall k :: 0 <= k < |w| ==> IsWordChar(w[k])
    ensures DartTypeFromPython("list[" + w + "]" + rest) == "List<" + DartTypeFromPython(w) + ">"
  {
    LowerListShape(w, rest);
    LowerWord(w);
    ListMatchShape(Lower(w), Lower(rest));
    DartTypeOfLower(w);
  }

  lemma LowerDictShape(k: string, ws: string, v: string, rest: string)
    requires forall i :: 0 <= i < |ws| ==> IsPySpace(ws[i])
    ensures Lower("dict[" + k + "," + ws + v + "]" + rest)
         == "dict[" + Lower(k) + "," + ws + Lower(v) + "]" + Lower(rest)
  {
    var lk, lv := Lower(k), Lower(v);
    LowerOfLowerCase(ws);
    LowerOfLowerCase("dict[");
    var a := "dict[" + k;
    var b := a + ",";
    var c := b + ws;
    var d := c + v;
    var e := d + "]";
    assert Lower(a) == "dict[" + lk by { LowerConcat("dict[", k); }
    assert Lower(b) == "dict[" + lk + "," by { LowerConcat(a, ","); }
    assert Lower(c) == "dict[" + lk + "," + ws by { LowerConcat(b, ws); }
    assert Lower(d) == "dict[" + lk + "," + ws + lv by { LowerConcat(c, v); }
    assert Lower(e) == "dict[" + lk + "," + ws + lv + "]" by { LowerConcat(d, "]"); }
    LowerConcat(e, rest);
  }

  /** `dict[K, V]` becomes `Map<f(K), f(V)>` for words `K` and `V`, with any
      whitespace after the comma. */
  lemma DictType(k: string, ws: string, v: string, rest: string)
    requires k != [] && forall i :: 0 <= i < |k| ==> IsWordChar(k[i])
    requires v != [] && forall i :: 0 <= i < |v| ==> IsWordChar(v[i])
    requires forall i :: 0 <= i < |ws| ==> IsPySpace(ws[i])
    ensures DartTypeFromPython("dict[" + k + "," + ws + v + "]" + rest)
         == "Map<" + DartTypeFromPython(k) + ", " + DartTypeFromPython(v) + ">"
  {
    var l := "dict[" + Lower(k) + "," + ws + Lower(v) + "]" + Lower(rest);
    LowerDictShape(k, ws, v, rest);
    LowerWord(k);
    LowerWord(v);
    DictMatchShape(Lower(k), ws, Lower(v), Lower(rest));
    assert ListMatch(l).None? by {
      assert l[0] == 'd';
    }
    DartTypeOfLower(k);
    DartTypeOfLower(v);
  }

  // ---------------------------------------------------------------------
  // Import lines
  // ---------------------------------------------------------------------

  const StdPackages: map<string, string> := map[
    "flutter" := "package:flutter/material.dart",
    "flutter_widgets" := "package:flutter/widgets.dart",
    "http" := "package:http/http.dart",
    "flutter_test" := "package:flutter_test/flutter_test.dart",
    "provider" := "package:provider/provider.dart",
    "json_annotation" := "package:json_annotation/json_annotation.dart"
  ]

  /** The URI one dependency is imported from; `packageName` is the optional
      current package, used only when it is a non-empty string. */
  function ImportUri(dep: string, packageName: Option<string>): string {
    if dep in StdPackages then StdPackages[dep] else LocalUri(dep, packageName)
  }

  /** The URI of a dependency outside the standard table. */
  function LocalUri(dep: string, packageName: Option<string>): string {
    if StartsWith(dep, "package:") then dep
    else if EndsWith(dep, ".dart") then
      if packageName.Some? && packageName.value != "" && !StartsWith(dep, "package:")
      then "package:" + packageName.value + "/" + dep
      else dep
    else dep + ".dart"
  }

  function ImportLine(dep: string, packageName: Option<string>): string {
    "import '" + ImportUri(dep, packageName) + "';"
  }

  function ImportLines(dependencies: seq<string>, packageName: Option<string>): (lines: seq<string>)
    ensures |lines| == |dependencies|
  {
    seq(|dependencies|, i requires 0 <= i < |dependencies| => ImportLine(dependencies[i], packageName))
  }

  /** Every dependency that is not a `package:` URI is imported from a
      `.dart` file, and a dependency outside the standard table appears in
      its own import. */
  lemma ImportUriShape(dep: string, packageName: Option<string>)
    ensures !StartsWith(dep, "package:") ==> EndsWith(ImportUri(dep, packageName), ".dart")
    ensures dep !in StdPackages ==>
      (EndsWith(ImportUri(dep, packageName), dep) || ImportUri(dep, packageName) == dep + ".dart")
  {
    if dep in StdPackages {
      StdPackagesShape(dep);
    } else {
      LocalUriShape(dep, packageName);
    }
  }

  lemma LocalUriShape(dep: string, packageName: Option<string>)
    ensures !StartsWith(dep, "package:") ==> EndsWith(LocalUri(dep, packageName), ".dart")
    ensures EndsWith(LocalUri(dep, packageName), dep) || LocalUri(dep, packageName) == dep + ".dart"
  {
    var u := LocalUri(dep, packageName);
    if StartsWith(dep, "package:") {
      EndsWithPrefixed([], dep, dep);
    } else if EndsWith(dep, ".dart") {
      var front := if packageName.Some? && packageName.value != "" then "package:" + packageName.value + "/" else [];
      assert u == front + dep;
      EndsWithPrefixed(front, dep, dep);
      EndsWithPrefixed(front, dep, ".dart");
    } else {
      EndsWithPrefixed(dep, ".dart", ".dart");
    }
  }

  /** A suffix of `s` is a suffix of anything ending in `s`. */
  lemma EndsWithPrefixed(front: string, s: string, t: string)
    requires |t| <= |s| && s[|s| - |t|..] == t
    ensures EndsWith(front + s, t)
  {
    assert (front + s)[|front + s| - |t|..] == s[|s| - |t|..];
  }

  /** The import line the loop of `generate_dart_imports` builds for one
      dependency. */
  method ImportFor(dep: string, packageName: Option<string>) returns (line: string)
    ensures line == ImportLine(dep, packageName)
  {
    var uri: string;
    if dep in StdPackages {
      uri := StdPackages[dep];
    } else if StartsWith(dep, "package:") {
      uri := dep;
    } else if EndsWith(dep, ".dart") {
      if packageName.Some? && packageName.value != "" && !StartsWith(dep, "package:") {
        uri := "package:" + packageName.value + "/" + dep;
      } else {
        uri := dep;
      }
    } else {
      uri := dep + ".dart";
    }
    line := "import '" + uri + "';";
  }

  /** `generate_dart_imports`: one import line per dependency, in order,
      joined by newlines. */
  method GenerateDartImports(dependencies: seq<string>, packageName: Option<string>)
    returns (r: string)
    ensures r == Join(ImportLines(dependencies, packageName), "\n")
  {
    var imports: seq<string> := [];
    ghost var all := ImportLines(dependencies, packageName);
    for i := 0 to |dependencies|
      invariant imports == all[..i]
    {
      var line := ImportFor(dependencies[i], packageName);
      assert all[..i + 1] == all[..i] + [line];
      imports := imports + [line];
    }
    assert all[..|dependencies|] == all;
    r := Join(imports, "\n");
  }

  lemma FlutterUri()
    ensures '\n' !in StdPackages["flutter"] && EndsWith(StdPackages["flutter"], ".dart")
  {
  }

  lemma FlutterWidgetsUri()
    ensures '\n' !in StdPackages["flutter_widgets"] && EndsWith(StdPackages["flutter_widgets"], ".dart")
  {
  }

  lemma HttpUri()
    ensures '\n' !in StdPackages["http"] && EndsWith(StdPackages["http"], ".dart")
  {
  }

  lemma FlutterTestUri()
    ensures '\n' !in StdPackages["flutter_test"] && EndsWith(StdPackages["flutter_test"], ".dart")
  {
  }

  lemma ProviderUri()
    ensures '\n' !in StdPackages["provider"] && EndsWith(StdPackages["provider"], ".dart")
  {
  }

  lemma JsonAnnotationUri()
    ensures '\n' !in StdPackages["json_annotation"] && EndsWith(StdPackages["json_annotation"], ".dart")
  {
  }

  /** Every standard import URI is a `.dart` file name without a newline. */
  lemma StdPackagesShape(dep: string)
    requires dep in StdPackages
    ensures '\n' !in StdPackages[dep] && EndsWith(StdPackages[dep], ".dart")
  {
    if dep == "flutter" {
      FlutterUri();
    } else if dep == "flutter_widgets" {
      FlutterWidgetsUri();
    } else if dep == "http" {
      HttpUri();
    } else if dep == "flutter_test" {
      FlutterTestUri();
    } else if dep == "provider" {
      ProviderUri();
    } else {
      assert dep == "json_annotation";
      JsonAnnotationUri();
    }
  }

  lemma ImportLineNoNewline(dep: string, packageName: Option<string>)
    requires '\n' !in dep
    requires packageName.Some? ==> '\n' !in packageName.value
    ensures '\n' !in ImportLine(dep, packageName)
  {
    var uri := ImportUri(dep, packageName);
    assert '\n' !in uri by {
      ImportPiecesNoNewline();
      if dep in StdPackages {
        StdPackagesShape(dep);
      }
    }
    ImportPiecesNoNewline();
  }

  lemma ImportPiecesNoNewline()
    ensures '\n' !in "import '" && '\n' !in "';" && '\n' !in "package:" && '\n' !in "/" && '\n' !in ".dart"
  {
  }

  /** When no dependency and no package name holds a newline, splitting the
      generated text at newlines recovers exactly one line per dependency. */
  lemma ImportsSplitIntoLines(dependencies: seq<string>, packageName: Option<string>)
    requires |dependencies| >= 1
    requires forall i :: 0 <= i < |dependencies| ==> '\n' !in dependencies[i]
    requires packageName.Some? ==> '\n' !in packageName.value
    ensures Split(Join(ImportLines(dependencies, packageName), "\n"), '\n') == ImportLines(dependencies, packageName)
  {
    var lines := ImportLines(dependencies, packageName);
    forall k | 0 <= k < |lines| ensures '\n' !in lines[k] {
      ImportLineNoNewline(dependencies[k], packageName);
    }
    SplitJoin(lines, '\n');
  }

  /** No dependency, no import text. */
  lemma NoDependenciesNoImports(packageName: Option<string>)
    ensures Join(ImportLines([], packageName), "\n") == ""
  {
  }
}
