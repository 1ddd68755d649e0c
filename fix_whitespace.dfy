/** The whitespace fixer script: three rewrites of a Python file's text —
    trailing spaces and tabs removed from every line, the final run of
    newlines collapsed to one, tabs expanded to four spaces — and the file is
    written back only when the text changed. Reading and writing files and
    walking directories are outside the model: the text, and the listing a
    directory walk yields, are parameters. */
module WhitespaceFix {
  import opened Outcomes
  import opened Text

  predicate IsBlank(c: char) { c == ' ' || c == '\t' }

  /** The length of the leading run of spaces and tabs. */
  function BlankRun(s: string): (n: nat)
    ensures n <= |s|
    ensures forall i :: 0 <= i < n ==> IsBlank(s[i])
    ensures n < |s| ==> !IsBlank(s[n])
  {
    if s != [] && IsBlank(s[0]) then 1 + BlankRun(s[1..]) else 0
  }

  /** No line ends with a space or a tab: each one is followed by a
      character, and not by a newline. */
  predicate NoTrailingBlanks(s: string) {
    forall i :: 0 <= i < |s| && IsBlank(s[i]) ==> i + 1 < |s| && s[i + 1] != '\n'
  }

  // ---------------------------------------------------------------------
  // Step 1

  /** `re.sub(r'[ \t]+$', '', content, flags=re.MULTILINE)`. The scan goes
      left to right; at the first blank of a run the greedy match takes the
      whole run, and it is removed when a newline or the end of the text
      follows. */
  function StripLineEnds(s: string): string
    decreases |s|
  {
    if s == [] then []
    else if !IsBlank(s[0]) then [s[0]] + StripLineEnds(s[1..])
    else
      var n := BlankRun(s);
      var rest := StripLineEnds(s[n..]);
      if n == |s| || s[n] == '\n' then rest else s[..n] + rest
  }

  /** Step 1 keeps a first character that is not blank. */
  lemma StripLineEndsFirst(s: string)
    requires s != [] && !IsBlank(s[0])
    ensures StripLineEnds(s) != [] && StripLineEnds(s)[0] == s[0]
  {
  }

  /** Step 1 does not make the text longer. */
  lemma {:induction false} StripLineEndsShorter(s: string)
    ensures |StripLineEnds(s)| <= |s|
    decreases |s|
  {
    if s != [] {
      if !IsBlank(s[0]) {
        StripLineEndsShorter(s[1..]);
      } else {
        StripLineEndsShorter(s[BlankRun(s)..]);
      }
    }
  }

  /** Step 1 keeps a last character that is not blank. */
  lemma {:induction false} StripLineEndsLast(s: string)
    requires s != [] && !IsBlank(s[|s| - 1])
    ensures StripLineEnds(s) != [] && StripLineEnds(s)[|StripLineEnds(s)| - 1] == s[|s| - 1]
    decreases |s|
  {
    if !IsBlank(s[0]) {
      if |s| > 1 {
        assert s[1..][|s[1..]| - 1] == s[|s| - 1];
        StripLineEndsLast(s[1..]);
      }
    } else {
      var n := BlankRun(s);
      assert n < |s|;
      assert s[n..][|s[n..]| - 1] == s[|s| - 1];
      StripLineEndsLast(s[n..]);
    }
  }

  /** After step 1 no line ends with a space or a tab. */
  lemma {:induction false} StripLineEndsNoTrailing(s: string)
    ensures NoTrailingBlanks(StripLineEnds(s))
    decreases |s|
  {
    if s != [] {
      if !IsBlank(s[0]) {
        var rest := StripLineEnds(s[1..]);
        StripLineEndsNoTrailing(s[1..]);
        var r := [s[0]] + rest;
        forall i | 0 <= i < |r| && IsBlank(r[i]) ensures i + 1 < |r| && r[i + 1] != '\n' {
          assert r[i] == rest[i - 1];
          assert i < |rest| && rest[i] != '\n';
          assert r[i + 1] == rest[i];
        }
      } else {
        var n := BlankRun(s);
        var rest := StripLineEnds(s[n..]);
        StripLineEndsNoTrailing(s[n..]);
        if n < |s| && s[n] != '\n' {
          StripLineEndsFirst(s[n..]);
          var r := s[..n] + rest;
          forall i | 0 <= i < |r| && IsBlank(r[i]) ensures i + 1 < |r| && r[i + 1] != '\n' {
            if i + 1 < n {
              assert r[i + 1] == s[i + 1];
            } else if i + 1 == n {
              assert r[i + 1] == rest[0];
            } else {
              assert r[i] == rest[i - n];
              assert r[i + 1] == rest[i - n + 1];
            }
          }
        }
      }
    }
  }

  /** After step 1 no line ends with a space or a tab, the text has not
      grown, and a first or last character that is not blank is kept. */
  lemma StripLineEndsClean(s: string)
    ensures var r := StripLineEnds(s);
      && NoTrailingBlanks(r)
      && |r| <= |s|
      && (s != [] && !IsBlank(s[0]) ==> r != [] && r[0] == s[0])
      && (s != [] && !IsBlank(s[|s| - 1]) ==> r != [] && r[|r| - 1] == s[|s| - 1])
  {
    StripLineEndsNoTrailing(s);
    StripLineEndsShorter(s);
    if s != [] && !IsBlank(s[0]) { StripLineEndsFirst(s); }
    if s != [] && !IsBlank(s[|s| - 1]) { StripLineEndsLast(s); }
  }

  /** The characters other than spaces and tabs, in order. */
  function WithoutBlanks(s: string): string {
    if s == [] then [] else (if IsBlank(s[0]) then [] else [s[0]]) + WithoutBlanks(s[1..])
  }

  lemma {:induction false} WithoutBlanksConcat(a: string, b: string)
    ensures WithoutBlanks(a + b) == WithoutBlanks(a) + WithoutBlanks(b)
  {
    if a != [] {
      assert (a + b)[1..] == a[1..] + b;
      WithoutBlanksConcat(a[1..], b);
    } else {
      assert a + b == b;
    }
  }

  lemma {:induction false} WithoutBlanksOfRun(s: string, n: nat)
    requires n <= |s| && forall i :: 0 <= i < n ==> IsBlank(s[i])
    ensures WithoutBlanks(s[..n]) == []
  {
    if n > 0 {
      assert s[..n][1..] == s[1..][..n - 1];
      WithoutBlanksOfRun(s[1..], n - 1);
    }
  }

  /** Step 1 removes spaces and tabs only: every other character, newlines
      included, is kept in order. */
  lemma {:induction false} StripLineEndsKeepsText(s: string)
    ensures WithoutBlanks(StripLineEnds(s)) == WithoutBlanks(s)
    decreases |s|
  {
    if s != [] {
      if !IsBlank(s[0]) {
        StripLineEndsKeepsText(s[1..]);
        WithoutBlanksConcat([s[0]], StripLineEnds(s[1..]));
      } else {
        var n := BlankRun(s);
        StripLineEndsKeepsText(s[n..]);
        WithoutBlanksOfRun(s, n);
        WithoutBlanksConcat(s[..n], s[n..]);
        assert s[..n] + s[n..] == s;
        if n < |s| && s[n] != '\n' {
          WithoutBlanksConcat(s[..n], StripLineEnds(s[n..]));
        }
      }
    }
  }

  lemma NoTrailingBlanksSuffix(s: string, k: nat)
    requires NoTrailingBlanks(s) && k <= |s|
    ensures NoTrailingBlanks(s[k..])
  {
    forall i | 0 <= i < |s[k..]| && IsBlank(s[k..][i])
      ensures i + 1 < |s[k..]| && s[k..][i + 1] != '\n'
    {
      assert s[k..][i] == s[k + i];
    }
  }

  /** Text without a blank at a line end is left as it is by step 1. */
  lemma {:induction false} StripLineEndsIdentity(s: string)
    requires NoTrailingBlanks(s)
    ensures StripLineEnds(s) == s
    decreases |s|
  {
    if s != [] {
      if !IsBlank(s[0]) {
        assert StripLineEnds(s[1..]) == s[1..] by {
          NoTrailingBlanksSuffix(s, 1);
          StripLineEndsIdentity(s[1..]);
        }
        assert [s[0]] + s[1..] == s;
      } else {
        var n := BlankRun(s);
        assert n < |s| && s[n] != '\n' by {
          assert IsBlank(s[n - 1]);
        }
        assert StripLineEnds(s[n..]) == s[n..] by {
          NoTrailingBlanksSuffix(s, n);
          StripLineEndsIdentity(s[n..]);
        }
        assert s[..n] + s[n..] == s;
      }
    }
  }

  // ---------------------------------------------------------------------
  // Step 2

  /** The text without its trailing newlines. */
  function TrimNewlines(s: string): (p: string)
    ensures |p| <= |s| && p == s[..|p|]
    ensures forall i :: |p| <= i < |s| ==> s[i] == '\n'
    ensures p == [] || p[|p| - 1] != '\n'
  {
    if s != [] && s[|s| - 1] == '\n' then TrimNewlines(s[..|s| - 1]) else s
  }

  /** The text ends with a newline. */
  predicate EndsInNewline(s: string) { s != [] && s[|s| - 1] == '\n' }

  /** The text ends with two newlines. */
  predicate EndsInTwoNewlines(s: string) { |s| >= 2 && s[|s| - 1] == '\n' && s[|s| - 2] == '\n' }

  /** `re.sub(r'\n+$', '\n', content)`: without the multi-line flag `$`
      only matches at the end (or before a last newline), so only the final
      run of newlines is replaced, by a single newline. */
  function CollapseFinalNewlines(s: string): (r: string)
    ensures EndsInNewline(r) <==> EndsInNewline(s)
    ensures !EndsInTwoNewlines(r)
    ensures TrimNewlines(r) == TrimNewlines(s)
  {
    if EndsInNewline(s) then
      var p := TrimNewlines(s);
      var r := p + "\n";
      assert r[..|r| - 1] == p;
      assert TrimNewlines(p) == p;
      r
    else s
  }

  /** Text that does not end with two newlines is left as it is by step 2. */
  lemma CollapseIdentity(s: string)
    requires !EndsInTwoNewlines(s)
    ensures CollapseFinalNewlines(s) == s
  {
    if EndsInNewline(s) {
      if |s| >= 2 {
        assert s[|s| - 2] != '\n';
        assert s[..|s| - 1][..|s| - 2] == s[..|s| - 2];
      }
      assert TrimNewlines(s) == s[..|s| - 1];
      assert s[..|s| - 1] + "\n" == s;
    }
  }

  /** Step 2 adds no blank at a line end. */
  lemma CollapseKeepsNoTrailingBlanks(s: string)
    requires NoTrailingBlanks(s)
    ensures NoTrailingBlanks(CollapseFinalNewlines(s))
  {
    if EndsInNewline(s) {
      var p := TrimNewlines(s);
      var r := p + "\n";
      assert |p| < |s| && s[|p|] == '\n';
      assert p == [] || !IsBlank(s[|p| - 1]);
      forall i | 0 <= i < |r| && IsBlank(r[i])
        ensures i + 1 < |r| && r[i + 1] != '\n'
      {
        assert i < |p| && r[i] == s[i];
        assert r[i + 1] == s[i + 1];
      }
    }
  }

  // ---------------------------------------------------------------------
  // Step 3

  /** `content.replace('\t', '    ')` */
  function ExpandTabs(s: string): string {
    ReplaceAll(s, "\t", "    ")
  }

  lemma ExpandTabsCons(c: char, s: string)
    ensures ExpandTabs([c] + s) == (if c == '\t' then "    " else [c]) + ExpandTabs(s)
  {
    assert ([c] + s)[..1] == [c];
    assert ([c] + s)[1..] == s;
  }

  lemma {:induction false} ExpandTabsConcat(a: string, b: string)
    ensures ExpandTabs(a + b) == ExpandTabs(a) + ExpandTabs(b)
  {
    if a == [] {
      assert a + b == b;
    } else {
      ExpandTabsCons(a[0], a[1..] + b);
      ExpandTabsCons(a[0], a[1..]);
      ExpandTabsConcat(a[1..], b);
      assert a + b == [a[0]] + (a[1..] + b);
      assert a == [a[0]] + a[1..];
    }
  }

  /** Expanded text holds no tab. */
  lemma {:induction false} ExpandTabsNoTab(s: string)
    ensures '\t' !in ExpandTabs(s)
  {
    if s != [] {
      ExpandTabsCons(s[0], s[1..]);
      ExpandTabsNoTab(s[1..]);
      assert s == [s[0]] + s[1..];
    }
  }

  /** Text without a tab is left as it is by step 3. */
  lemma ExpandTabsIdentity(s: string)
    requires '\t' !in s
    ensures ExpandTabs(s) == s
  {
    ReplaceAllAbsent(s, "\t", "    ");
  }

  /** The first character of expanded text is the first character's image. */
  lemma ExpandTabsHead(s: string)
    requires s != []
    ensures ExpandTabs(s) != [] && ExpandTabs(s)[0] == (if s[0] == '\t' then ' ' else s[0])
  {
    ExpandTabsCons(s[0], s[1..]);
    assert s == [s[0]] + s[1..];
  }

  /** The last character of expanded text is a newline exactly when the
      last character of the text is. */
  lemma ExpandTabsLast(s: string)
    requires s != []
    ensures ExpandTabs(s) != []
    ensures ExpandTabs(s)[|ExpandTabs(s)| - 1] == '\n' <==> s[|s| - 1] == '\n'
  {
    var front := s[..|s| - 1];
    var c := s[|s| - 1];
    assert s == front + [c];
    ExpandTabsConcat(front, [c]);
    ExpandTabsCons(c, []);
    assert [c] + [] == [c];
  }

  /** Step 3 adds no blank at a line end: a tab that is followed by a
      character other than a newline becomes spaces that are too. */
  lemma {:induction false} ExpandTabsKeepsNoTrailingBlanks(s: string)
    requires NoTrailingBlanks(s)
    ensures NoTrailingBlanks(ExpandTabs(s))
  {
    if s != [] {
      var tail := s[1..];
      assert NoTrailingBlanks(tail) by {
        forall i | 0 <= i < |tail| && IsBlank(tail[i])
          ensures i + 1 < |tail| && tail[i + 1] != '\n'
        {
          assert tail[i] == s[i + 1];
        }
      }
      ExpandTabsKeepsNoTrailingBlanks(tail);
      ExpandTabsCons(s[0], tail);
      assert s == [s[0]] + tail;
      var head := if s[0] == '\t' then "    " else [s[0]];
      var et := ExpandTabs(tail);
      var r := head + et;
      if IsBlank(s[0]) {
        assert tail != [] && tail[0] != '\n';
        ExpandTabsHead(tail);
        assert et[0] != '\n';
      }
      forall i | 0 <= i < |r| && IsBlank(r[i])
        ensures i + 1 < |r| && r[i + 1] != '\n'
      {
        if i >= |head| {
          assert r[i] == et[i - |head|];
          assert r[i + 1] == et[i + 1 - |head|];
        } else if i + 1 == |head| {
          assert r[i + 1] == et[0];
        }
      }
    }
  }

  /** Expanding text that ends with a newline expands what comes before
      it and keeps the newline. */
  lemma ExpandTabsOfLine(front: string)
    ensures ExpandTabs(front + "\n") == ExpandTabs(front) + "\n"
  {
    ExpandTabsConcat(front, "\n");
    ExpandTabsCons('\n', []);
    assert "\n" + [] == "\n";
  }

  /** Step 3 keeps whether the text ends with a newline, and never creates
      two final newlines. */
  lemma ExpandTabsFinalNewlines(s: string)
    ensures EndsInNewline(ExpandTabs(s)) <==> EndsInNewline(s)
    ensures EndsInTwoNewlines(ExpandTabs(s)) ==> EndsInTwoNewlines(s)
  {
    if s == [] {
      assert ExpandTabs(s) == [];
    } else {
      ExpandTabsLast(s);
      if EndsInNewline(s) {
        var front := s[..|s| - 1];
        assert s == front + "\n";
        ExpandTabsOfLine(front);
        if front != [] {
          ExpandTabsLast(front);
        } else {
          assert ExpandTabs(front) == [];
        }
      }
    }
  }

  // ---------------------------------------------------------------------
  // The three steps

  /** The text `fix_whitespace_issues` writes back. */
  function Fixed(content: string): string {
    ExpandTabs(CollapseFinalNewlines(StripLineEnds(content)))
  }

  /** After the fix no line ends with a space or a tab, and there is no tab. */
  lemma FixedIsClean(content: string)
    ensures NoTrailingBlanks(Fixed(content))
    ensures '\t' !in Fixed(content)
  {
    var s1 := StripLineEnds(content);
    StripLineEndsClean(content);
    CollapseKeepsNoTrailingBlanks(s1);
    ExpandTabsKeepsNoTrailingBlanks(CollapseFinalNewlines(s1));
    ExpandTabsNoTab(CollapseFinalNewlines(s1));
  }

  /** The fix never leaves two final newlines, and it ends the text with
      a newline exactly when step 1 does. */
  lemma FixedFinalNewline(content: string)
    ensures !EndsInTwoNewlines(Fixed(content))
    ensures EndsInNewline(Fixed(content)) <==> EndsInNewline(StripLineEnds(content))
  {
    ExpandTabsFinalNewlines(CollapseFinalNewlines(StripLineEnds(content)));
  }

  /** A trailing run of newlines becomes exactly one newline; text whose
      last character is neither a newline nor a blank gets no newline
      added. */
  lemma FixedTrailingNewline(content: string)
    ensures EndsInNewline(content) ==> EndsInNewline(Fixed(content)) && !EndsInTwoNewlines(Fixed(content))
    ensures content != [] && !IsBlank(content[|content| - 1]) && !EndsInNewline(content)
      ==> !EndsInNewline(Fixed(content))
  {
    FixedFinalNewline(content);
    StripLineEndsClean(content);
  }

  /** Fixing fixed text changes nothing. */
  lemma FixedIdempotent(content: string)
    ensures Fixed(Fixed(content)) == Fixed(content)
  {
    var y := Fixed(content);
    FixedIsClean(content);
    FixedFinalNewline(content);
    StripLineEndsIdentity(y);
    CollapseIdentity(y);
    ExpandTabsIdentity(y);
  }

  /** `fix_whitespace_issues(file_path)` on a file holding `content`: the
      three rewrites in turn, then whether the text changed and, if so, the
      text written back. */
  method FixWhitespaceIssues(content: string) returns (changed: bool, written: Option<string>)
    ensures changed <==> Fixed(content) != content
    ensures written == if changed then Some(Fixed(content)) else None
  {
    var original := content;
    var text := StripLineEnds(content);
    text := CollapseFinalNewlines(text);
    text := ExpandTabs(text);
    if text != original {
      return true, Some(text);
    }
    return false, None;
  }

  // ---------------------------------------------------------------------
  // Finding the files

  /** One triple of a directory walk: a directory and the file names in it. */
  datatype WalkEntry = WalkEntry(root: string, files: seq<string>)

  /** `os.path.join(root, name)` for a plain file name. */
  function PathJoin(root: string, name: string): (p: string)
    ensures EndsWith(p, name) || name == []
  {
    var p := if root == [] || EndsWith(root, "/") then root + name else root + "/" + name;
    assert p[|p| - |name|..] == name;
    p
  }

  /** The `.py` files of one directory, joined to it, in order. */
  function PythonFilesIn(root: string, names: seq<string>): (r: seq<string>)
    ensures forall k :: 0 <= k < |r| ==> EndsWith(r[k], ".py")
    ensures forall k :: 0 <= k < |names| && EndsWith(names[k], ".py") ==> PathJoin(root, names[k]) in r
  {
    if names == [] then []
    else
      var front := PythonFilesIn(root, names[..|names| - 1]);
      var last := names[|names| - 1];
      assert forall k :: 0 <= k < |names| - 1 ==> names[..|names| - 1][k] == names[k];
      if EndsWith(last, ".py") then
        var p := PathJoin(root, last);
        assert p[|p| - 3..] == last[|last| - 3..];
        front + [p]
      else front
  }

  /** The `.py` files of a whole walk, directory by directory. */
  function PythonFiles(walk: seq<WalkEntry>): (r: seq<string>)
    ensures forall k :: 0 <= k < |r| ==> EndsWith(r[k], ".py")
    ensures forall j, k ::
      0 <= j < |walk| && 0 <= k < |walk[j].files| && EndsWith(walk[j].files[k], ".py")
      ==>
      PathJoin(walk[j].root, walk[j].files[k]) in r
  {
    if walk == [] then []
    else
      var front := PythonFiles(walk[..|walk| - 1]);
      assert forall j :: 0 <= j < |walk| - 1 ==> walk[..|walk| - 1][j] == walk[j];
      front + PythonFilesIn(walk[|walk| - 1].root, walk[|walk| - 1].files)
  }

  /** `find_python_files(directory)`, given what the walk of the directory
      yields. */
  method FindPythonFiles(walk: seq<WalkEntry>) returns (pythonFiles: seq<string>)
    ensures pythonFiles == PythonFiles(walk)
  {
    pythonFiles := [];
    for j := 0 to |walk|
      invariant pythonFiles == PythonFiles(walk[..j])
    {
      assert walk[..j + 1][..j] == walk[..j];
      var entry := walk[j];
      ghost var start := pythonFiles;
      for k := 0 to |entry.files|
        invariant pythonFiles == start + PythonFilesIn(entry.root, entry.files[..k])
      {
        assert entry.files[..k + 1][..k] == entry.files[..k];
        if EndsWith(entry.files[k], ".py") {
          pythonFiles := pythonFiles + [PathJoin(entry.root, entry.files[k])];
        }
      }
      assert entry.files[..|entry.files|] == entry.files;
    }
    assert walk[..|walk|] == walk;
  }
}
