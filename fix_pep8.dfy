/** The PEP 8 fixer script: the per-file repairs it applies to the files it
    lists as having problems, each one gated by the problem codes listed for
    the file, and the `autopep8` command line it runs. Files are read and
    written outside the model: each fixer takes the text or the lines read
    and gives back what it writes, or nothing when it leaves the file alone. */
module Pep8Fix {
  import opened Outcomes
  import opened Text

  // ---------------------------------------------------------------------
  // The listed files

  /** `PROBLEM_FILES` */
  const ProblemFiles: map<string, seq<string>> := map[
    "src/agents/main_orchestrator_agent.py" := ["E231", "E501"],
    "src/agents/android_group/android_group_agent.py" := ["F841", "E501"],
    "src/agents/model_group/user_model_agent.py" := ["E501"],
    "src/agents/security_group/security_group_agent.py" := ["E501"],
    "src/cli/client.py" := ["F841", "E501", "F541"],
    "src/tools/code_generation.py" := ["F401"],
    "src/utils/dart_utils.py" := ["F401"]
  ]

  /** `PROBLEM_FILES.get(file_path, [])` */
  function Codes(path: string): (codes: seq<string>)
    ensures path !in ProblemFiles ==> codes == []
  {
    if path in ProblemFiles then ProblemFiles[path] else []
  }

  /** Whether a fixer for `code` touches the file. */
  predicate Listed(path: string, code: string) {
    code in Codes(path)
  }

  /** A file the script does not list is left alone by every fixer. */
  lemma UnlistedUntouched(path: string, code: string)
    requires path !in ProblemFiles
    ensures !Listed(path, code)
  {
  }

  /** The comma fix touches only the orchestrator, and the f-string fix only
      the command-line client. */
  lemma SingleFileFixers(path: string)
    ensures Listed(path, "E231") <==> path == "src/agents/main_orchestrator_agent.py"
    ensures Listed(path, "F541") <==> path == "src/cli/client.py"
  {
  }

  /** The unused-variable fix touches the Android group and the client. */
  lemma UnusedVariableTargets(path: string)
    ensures Listed(path, "F841") <==>
      path == "src/agents/android_group/android_group_agent.py" || path == "src/cli/client.py"
  {
  }

  // ---------------------------------------------------------------------
  // autopep8

  /** `["--aggressive"] * n`: a negative count gives an empty list. */
  function Repeat(s: string, n: int): (r: seq<string>)
    ensures |r| == if n < 0 then 0 else n
    ensures forall k :: 0 <= k < |r| ==> r[k] == s
    decreases n
  {
    if n <= 0 then [] else Repeat(s, n - 1) + [s]
  }

  const AggressiveFlag := "--aggressive"

  /** `" ".join(["--aggressive"] * aggressive_level)` */
  function AggressiveFlags(level: int): string {
    Join(Repeat(AggressiveFlag, level), " ")
  }

  /** The flag string holds the flag once per level, separated by single
      spaces: split at the spaces it gives the flags back, and it is empty
      for a level of zero or less. */
  lemma AggressiveFlagsPieces(level: int)
    ensures level <= 0 ==> AggressiveFlags(level) == ""
    ensures level >= 1 ==> Split(AggressiveFlags(level), ' ') == Repeat(AggressiveFlag, level)
  {
    if level >= 1 {
      var parts := Repeat(AggressiveFlag, level);
      assert ' ' !in AggressiveFlag;
      SplitJoin(parts, ' ');
    }
  }

  /** Each level adds the flag and one separating space. */
  lemma {:induction false} AggressiveFlagsLength(level: int)
    requires level >= 1
    ensures |AggressiveFlags(level)| == 13 * level - 1
    decreases level
  {
    if level > 1 {
      AggressiveFlagsLength(level - 1);
      JoinAppend(Repeat(AggressiveFlag, level - 1), AggressiveFlag, " ");
      assert Repeat(AggressiveFlag, level) == Repeat(AggressiveFlag, level - 1) + [AggressiveFlag];
    } else {
      assert Repeat(AggressiveFlag, 1) == [AggressiveFlag];
    }
  }

  /** Joining one more piece appends the separator and the piece. */
  lemma {:induction false} JoinAppend(parts: seq<string>, x: string, sep: string)
    requires |parts| >= 1
    ensures Join(parts + [x], sep) == Join(parts, sep) + sep + x
    decreases |parts|
  {
    if |parts| == 1 {
      assert (parts + [x])[1..] == [x];
    } else {
      assert (parts + [x])[1..] == parts[1..] + [x];
      JoinAppend(parts[1..], x, sep);
    }
  }

  /** The shell command `run_autopep8_on_file` runs. */
  function Autopep8Command(path: string, level: int): string {
    "autopep8 --in-place " + AggressiveFlags(level) + " --max-line-length=79 " + path
  }

  /** `fix_line_length(file_path)`: for a file listed with E501, the command
      that reruns autopep8 at level 3. */
  function FixLineLength(path: string): (command: Option<string>)
    ensures command.Some? <==> Listed(path, "E501")
    ensures command.Some? ==> command.value == Autopep8Command(path, 3)
  {
    if Listed(path, "E501") then Some(Autopep8Command(path, 3)) else None
  }

  // ---------------------------------------------------------------------
  // Space after a comma

  /** `re.sub(r',([^\s])', r', \1', content)`: a comma followed by a
      character that is not whitespace gets a space between them. The match
      takes both characters, so the scan resumes after the second one. */
  function CommaFix(s: string): (r: string)
    ensures |r| >= |s|
    decreases |s|
  {
    if |s| >= 2 && s[0] == ',' && !IsPySpace(s[1]) then ", " + [s[1]] + CommaFix(s[2..])
    else if s == [] then []
    else [s[0]] + CommaFix(s[1..])
  }

  /** The number of places the comma fix rewrites. */
  function CommaMatches(s: string): nat
    decreases |s|
  {
    if |s| >= 2 && s[0] == ',' && !IsPySpace(s[1]) then 1 + CommaMatches(s[2..])
    else if s == [] then 0
    else CommaMatches(s[1..])
  }

  /** The text without its spaces. */
  function WithoutSpaces(s: string): string {
    if s == [] then [] else (if s[0] == ' ' then [] else [s[0]]) + WithoutSpaces(s[1..])
  }

  lemma {:induction false} WithoutSpacesConcat(a: string, b: string)
    ensures WithoutSpaces(a + b) == WithoutSpaces(a) + WithoutSpaces(b)
  {
    if a == [] {
      assert a + b == b;
    } else {
      assert (a + b)[1..] == a[1..] + b;
      WithoutSpacesConcat(a[1..], b);
    }
  }

  /** The fix only inserts spaces, one per match: removing the spaces from
      both gives the same text. */
  lemma {:induction false} CommaFixInsertsSpaces(s: string)
    ensures WithoutSpaces(CommaFix(s)) == WithoutSpaces(s)
    ensures |CommaFix(s)| == |s| + CommaMatches(s)
    decreases |s|
  {
    if |s| >= 2 && s[0] == ',' && !IsPySpace(s[1]) {
      CommaFixInsertsSpaces(s[2..]);
      WithoutSpacesConcat(", " + [s[1]], CommaFix(s[2..]));
      WithoutSpacesConcat([s[0], s[1]], s[2..]);
      assert s == [s[0], s[1]] + s[2..];
      assert WithoutSpaces(", " + [s[1]]) == [',', s[1]] by {
        assert (", " + [s[1]])[1..] == " " + [s[1]];
        assert (" " + [s[1]])[1..] == [s[1]];
        assert [s[1]][1..] == [];
      }
      assert WithoutSpaces([s[0], s[1]]) == [',', s[1]] by {
        assert [s[0], s[1]][1..] == [s[1]];
        assert [s[1]][1..] == [];
      }
    } else if s != [] {
      CommaFixInsertsSpaces(s[1..]);
      WithoutSpacesConcat([s[0]], CommaFix(s[1..]));
      WithoutSpacesConcat([s[0]], s[1..]);
      assert s == [s[0]] + s[1..];
    }
  }

  /** Every comma is followed by whitespace or ends the text. */
  predicate SpacedCommas(s: string) {
    forall i :: 0 <= i < |s| - 1 && s[i] == ',' ==> IsPySpace(s[i + 1])
  }

  /** Text whose commas are all spaced is left as it is. */
  lemma {:induction false} CommaFixIdentity(s: string)
    requires SpacedCommas(s)
    ensures CommaFix(s) == s
    decreases |s|
  {
    if s != [] {
      assert SpacedCommas(s[1..]) by {
        forall i | 0 <= i < |s[1..]| - 1 && s[1..][i] == ','
          ensures IsPySpace(s[1..][i + 1])
        {
          assert s[1..][i] == s[i + 1];
        }
      }
      CommaFixIdentity(s[1..]);
      assert [s[0]] + s[1..] == s;
    }
  }

  lemma CommaFixUnneeded(s: string)
    ensures SpacedCommas(s) ==> CommaFix(s) == s
  {
    if SpacedCommas(s) {
      CommaFixIdentity(s);
    }
  }

  /** Two commas in a row: the second is consumed by the first match, so it
      stays unspaced. */
  lemma DoubleCommaExample()
    ensures CommaFix(",,x") == ", ,x"
    ensures !SpacedCommas(CommaFix(",,x"))
  {
    var s := ",,x";
    assert s[2..] == "x";
    assert CommaFix("x") == "x" by {
      assert "x"[1..] == [];
    }
    assert CommaFix(s) == ", " + [','] + "x";
    assert (", ,x")[2] == ',' && !IsPySpace((", ,x")[3]);
  }

  /** `fix_whitespace_after_comma(file_path)` on a file holding `content`:
      the text written, for a file listed with E231. */
  function FixWhitespaceAfterComma(path: string, content: string): (written: Option<string>)
    ensures written.Some? <==> Listed(path, "E231")
    ensures written.Some? ==> WithoutSpaces(written.value) == WithoutSpaces(content)
    ensures written.Some? && SpacedCommas(content) ==> written.value == content
  {
    if Listed(path, "E231") then
      CommaFixInsertsSpaces(content);
      CommaFixUnneeded(content);
      Some(CommaFix(content))
    else None
  }

  // ---------------------------------------------------------------------
  // Unused variables

  const PlannedUseNote := "  # 향후 사용 예정\n"
  const ExtensionNote := "  # 향후 기능 확장 시 사용\n"

  /** `line.strip().startswith("#")` */
  predicate IsComment(line: string) {
    StartsWith(Strip(line), "#")
  }

  /** The note a line of `fix_unused_variables` gets, if any: lines
      assigning `app_name` (and not mentioning a local variable), lines
      assigning `app_name_slug`, and lines mentioning one of the two unused
      parsers. */
  function UnusedNote(line: string): Option<string> {
    if Contains(line, "app_name") && Contains(line, "=") && !Contains(line, "local variable") then Some(PlannedUseNote)
    else if Contains(line, "app_name_slug") && Contains(line, "=") then Some(PlannedUseNote)
    else if Contains(line, "status_parser") || Contains(line, "list_parser") then Some(ExtensionNote)
    else None
  }

  /** One line as `fix_unused_variables` rewrites it: a comment line is
      kept; any other line that gets a note loses its trailing whitespace and
      ends with the note and a newline. */
  function UnusedLine(line: string): (r: string)
    ensures IsComment(line) || UnusedNote(line).None? ==> r == line
    ensures !IsComment(line) && UnusedNote(line).Some? ==> r == RStrip(line) + UnusedNote(line).value
  {
    match UnusedNote(line)
    case Some(note) => if IsComment(line) then line else RStrip(line) + note
    case None => line
  }

  /** Every line mentioning `app_name_slug` mentions `app_name`, so the
      second case is reached only by lines that mention a local variable. */
  lemma SlugCaseNeedsLocalVariable(line: string)
    requires Contains(line, "app_name_slug") && Contains(line, "=")
    ensures !Contains(line, "local variable") ==> Contains(line, "app_name")
  {
    assert StartsWith("app_name_slug", "app_name");
    ContainsPrefix(line, "app_name_slug", "app_name");
  }

  /** The lines `fix_unused_variables` writes back, one for each line read. */
  function UnusedLines(lines: seq<string>): (r: seq<string>)
    ensures |r| == |lines|
    ensures forall k :: 0 <= k < |r| ==> r[k] == UnusedLine(lines[k])
  {
    seq(|lines|, k requires 0 <= k < |lines| => UnusedLine(lines[k]))
  }

  /** The fix keeps the number of lines, every comment line, and every line
      without a note. */
  lemma UnusedLinesKeep(lines: seq<string>)
    ensures |UnusedLines(lines)| == |lines|
    ensures forall k :: 0 <= k < |lines| && (IsComment(lines[k]) || UnusedNote(lines[k]).None?) ==>
      UnusedLines(lines)[k] == lines[k]
  {
  }

  /** The loop of `fix_unused_variables` over the lines read. */
  method RewriteUnusedLines(lines: seq<string>) returns (newLines: seq<string>)
    ensures newLines == UnusedLines(lines)
  {
    newLines := [];
    ghost var fixed := UnusedLines(lines);
    for i := 0 to |lines|
      invariant newLines == fixed[..i]
    {
      assert fixed[..i + 1] == fixed[..i] + [fixed[i]];
      newLines := newLines + [UnusedLine(lines[i])];
    }
    assert fixed[..|lines|] == fixed;
  }

  /** `fix_unused_variables(file_path)` on a file read as `lines`. */
  method FixUnusedVariables(path: string, lines: seq<string>) returns (written: Option<seq<string>>)
    ensures written.Some? <==> Listed(path, "F841")
    ensures written.Some? ==> written.value == UnusedLines(lines)
  {
    if !Listed(path, "F841") {
      return None;
    }
    var newLines := RewriteUnusedLines(lines);
    written := Some(newLines);
  }

  // ---------------------------------------------------------------------
  // f-strings without placeholders

  /** Whether a line holds `f'` or `f"`. */
  predicate MentionsFString(line: string) {
    Contains(line, "f'") || Contains(line, "f\"")
  }

  /** One line as `fix_f_string_placeholders` rewrites it: a line that
      mentions an f-string and holds no `{` has every `f'` and `f"` turned
      into a bare quote. */
  function FStringLine(line: string): (r: string)
    ensures !MentionsFString(line) || '{' in line ==> r == line
  {
    if MentionsFString(line) && '{' !in line then ReplaceAll(ReplaceAll(line, "f'", "'"), "f\"", "\"") else line
  }

  /** The text without its letters `f`. */
  function WithoutF(s: string): string {
    if s == [] then [] else (if s[0] == 'f' then [] else [s[0]]) + WithoutF(s[1..])
  }

  lemma {:induction false} WithoutFConcat(a: string, b: string)
    ensures WithoutF(a + b) == WithoutF(a) + WithoutF(b)
  {
    if a == [] {
      assert a + b == b;
    } else {
      assert (a + b)[1..] == a[1..] + b;
      WithoutFConcat(a[1..], b);
    }
  }

  /** Replacing `f` and a quote by the quote only drops letters `f`. */
  lemma {:induction false} DropFKeepsRest(s: string, q: char)
    requires q != 'f'
    ensures WithoutF(ReplaceAll(s, ['f', q], [q])) == WithoutF(s)
    ensures |ReplaceAll(s, ['f', q], [q])| <= |s|
    decreases |s|
  {
    var pat := ['f', q];
    if |s| >= 2 {
      if s[..2] == pat {
        DropFKeepsRest(s[2..], q);
        WithoutFConcat([q], ReplaceAll(s[2..], pat, [q]));
        WithoutFConcat(pat, s[2..]);
        assert s == pat + s[2..];
        assert WithoutF(pat) == [q] by {
          assert pat[1..] == [q];
          assert [q][1..] == [];
        }
        assert WithoutF([q]) == [q] by {
          assert [q][1..] == [];
        }
      } else {
        DropFKeepsRest(s[1..], q);
        WithoutFConcat([s[0]], ReplaceAll(s[1..], pat, [q]));
        WithoutFConcat([s[0]], s[1..]);
        assert s == [s[0]] + s[1..];
      }
    }
  }

  /** The fix removes letters `f` and nothing else, so it never lengthens
      a line. */
  lemma FStringLineDropsOnlyF(line: string)
    ensures WithoutF(FStringLine(line)) == WithoutF(line)
    ensures |FStringLine(line)| <= |line|
  {
    if MentionsFString(line) && '{' !in line {
      DropFKeepsRest(line, '\'');
      DropFKeepsRest(ReplaceAll(line, "f'", "'"), '"');
    }
  }

  /** The rewrite is blind to words: a quoted word ending in `f` loses it. */
  lemma StaffExample(line: string)
    requires line == "'staff'"
    ensures FStringLine(line) == "'staf'"
  {
    assert MentionsFString(line) by {
      assert line[5..][..2] == "f'";
      ContainsSuffix(line, 5, "f'");
    }
    var once := "'staf'";
    assert ReplaceAll(line, "f'", "'") == once by {
      assert line == "'sta" + "ff'";
      ReplaceAllSkip("'sta", "ff'", "f'", "'");
      var t := "ff'";
      assert t[..2] != "f'" && t[1..] == "f'" + "";
      ReplaceAllFront("f'", "", "'");
      assert ReplaceAll(t, "f'", "'") == "f" + "'";
    }
    assert ReplaceAll(once, "f\"", "\"") == once by {
      ReplaceAllMissingChar(once, "f\"", "\"", 1);
    }
  }

  /** The lines `fix_f_string_placeholders` writes back, one for each line read. */
  function FStringLines(lines: seq<string>): (r: seq<string>)
    ensures |r| == |lines|
    ensures forall k :: 0 <= k < |r| ==> r[k] == FStringLine(lines[k])
  {
    seq(|lines|, k requires 0 <= k < |lines| => FStringLine(lines[k]))
  }

  /** `fix_f_string_placeholders(file_path)` on a file read as `lines`. */
  method FixFStringPlaceholders(path: string, lines: seq<string>) returns (written: Option<seq<string>>)
    ensures written.Some? <==> Listed(path, "F541")
    ensures written.Some? ==> written.value == FStringLines(lines)
  {
    if !Listed(path, "F541") {
      return None;
    }
    var newLines: seq<string> := [];
    for i := 0 to |lines|
      invariant newLines == FStringLines(lines[..i])
    {
      var line := lines[i];
      if MentionsFString(line) {
        if '{' !in line {
          line := ReplaceAll(ReplaceAll(line, "f'", "'"), "f\"", "\"");
        }
      }
      newLines := newLines + [line];
    }
    assert lines[..|lines|] == lines;
    written := Some(newLines);
  }
}
