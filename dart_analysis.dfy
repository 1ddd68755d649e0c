/** The Dart static-analysis tools of the security group: reading the
    analyzer's output lines as issues, the per-file report that
    `run_dart_analyze` saves, and the summary `analyze_dart_files` builds
    over every saved `.dart` artifact. Running `dart analyze`, reading an
    artifact and saving one are outside the model: their outcomes are
    parameters. */
module DartStaticAnalysis {
  import opened Outcomes
  import opened Text
  import opened Json
  import opened Tools

  // ---------------------------------------------------------------------
  // Output lines

  datatype IssueType = ErrorIssue | WarningIssue | InfoIssue

  /** The `"type"` the report shows. */
  function TypeText(t: IssueType): string {
    match t
    case ErrorIssue => "error"
    case WarningIssue => "warning"
    case InfoIssue => "info"
  }

  datatype Issue = Issue(line: int, kind: IssueType, message: string)

  const AnalyzingPrefix := "Analyzing"

  /** A line the parser looks at: not empty, not the analyzer's progress
      line, and with at least three `:`-separated fields. */
  predicate Examined(line: string) {
    line != [] && !StartsWith(line, AnalyzingPrefix) && |Split(line, ':')| >= 3
  }

  /** The kind a numbered line's third field selects. */
  function KindOf(field: string): IssueType {
    if Contains(Lower(field), "error") then ErrorIssue else WarningIssue
  }

  /** The issue one output line yields. Fields are `:`-separated: the
      second is the line number, the third decides between error and
      warning, the rest is the message. A line whose second field is not a
      number is kept whole as an `info` issue at line 0. */
  function ParseLine(line: string): (r: Option<Issue>)
    ensures r.Some? <==> Examined(line)
    ensures r.Some? ==> (r.value.kind == InfoIssue <==> ParseInt(Strip(Split(line, ':')[1])).None?)
    ensures r.Some? && r.value.kind == InfoIssue ==> r.value == Issue(0, InfoIssue, Strip(line))
  {
    if !Examined(line) then None
    else
      var parts := Split(line, ':');
      match ParseInt(Strip(parts[1]))
      case None => Some(Issue(0, InfoIssue, Strip(line)))
      case Some(n) =>
        Some(Issue(n, KindOf(parts[2]), Strip(Join(parts[3..], ":"))))
  }

  lemma IntToStringNoColon(n: int)
    ensures ':' !in IntToString(n)
  {
  }

  lemma NotAnalyzingLine(file: string, rest: string)
    requires !StartsWith(file, AnalyzingPrefix)
    ensures !StartsWith(file + ":" + rest, AnalyzingPrefix)
  {
    var line := file + ":" + rest;
    if |file| >= |AnalyzingPrefix| {
      assert line[..|AnalyzingPrefix|] == file[..|AnalyzingPrefix|];
    } else {
      assert line[|file|] == ':';
      assert ':' !in AnalyzingPrefix;
    }
  }

  /** A line whose fields are `file`, `num`, `kind` and then the pieces of
      `msg`, and whose number field reads as `n`, yields that issue. */
  lemma ParseLineOfFields(line: string, file: string, num: string, kind: string, msg: string, n: int)
    requires line != [] && !StartsWith(line, AnalyzingPrefix)
    requires Split(line, ':') == [file, num, kind] + Split(msg, ':')
    requires ParseInt(Strip(num)) == Some(n)
    ensures ParseLine(line) == Some(Issue(n, KindOf(kind), Strip(msg)))
  {
    var parts := Split(line, ':');
    assert parts[1] == num && parts[2] == kind;
    assert parts[3..] == Split(msg, ':');
    JoinSplit(msg, ':');
  }

  lemma SplitAfterField(a: string, b: string)
    requires ':' !in a
    ensures Split(a + ":" + b, ':') == [a] + Split(b, ':')
  {
    SplitAfterPiece(a, ':', b);
    assert a + [':'] + b == a + ":" + b;
  }

  lemma FieldsAssociate(file: string, num: string, kind: string, msg: string)
    ensures file + ":" + num + ":" + kind + ":" + msg == file + ":" + (num + ":" + (kind + ":" + msg))
  {
  }

  /** The fields of `file:num:kind:msg` when the first three hold no `:`. */
  lemma RecordFields(file: string, num: string, kind: string, msg: string)
    requires ':' !in file && ':' !in num && ':' !in kind
    ensures Split(file + ":" + num + ":" + kind + ":" + msg, ':') == [file, num, kind] + Split(msg, ':')
  {
    var tail := kind + ":" + msg;
    var mid := num + ":" + tail;
    var pieces := Split(msg, ':');
    assert Split(file + ":" + mid, ':') == [file] + ([num] + ([kind] + pieces)) by {
      SplitAfterField(kind, msg);
      SplitAfterField(num, tail);
      SplitAfterField(file, mid);
    }
    FieldsAssociate(file, num, kind, msg);
    assert [file] + ([num] + ([kind] + pieces)) == [file, num, kind] + pieces;
  }

  /** A line written the way the parser reads it,
      `file:number:kind:message`, with no `:` in the first and third fields,
      yields exactly that number, the kind its third field names and the
      stripped message, colons inside the message included. */
  lemma {:induction false} ParseLineRoundTrip(file: string, n: int, kind: string, msg: string)
    requires ':' !in file && ':' !in kind && !StartsWith(file, AnalyzingPrefix)
    ensures ParseLine(file + ":" + IntToString(n) + ":" + kind + ":" + msg)
         == Some(Issue(n, KindOf(kind), Strip(msg)))
  {
    var num := IntToString(n);
    IntToStringNoColon(n);
    RecordFields(file, num, kind, msg);
    var rest := num + ":" + kind + ":" + msg;
    NotAnalyzingLine(file, rest);
    assert file + ":" + rest == file + ":" + num + ":" + kind + ":" + msg;
    ParseIntOfIntToString(n);
    ParseLineOfFields(file + ":" + num + ":" + kind + ":" + msg, file, num, kind, msg, n);
  }

  /** The values of the present options, in order. */
  function Somes(opts: seq<Option<Issue>>): (r: seq<Issue>)
    ensures |r| <= |opts|
    ensures (forall k :: 0 <= k < |opts| ==> opts[k].None?) ==> r == []
  {
    if opts == [] then []
    else
      var front := Somes(opts[..|opts| - 1]);
      assert forall k :: 0 <= k < |opts| - 1 ==> opts[..|opts| - 1][k] == opts[k];
      match opts[|opts| - 1]
      case None => front
      case Some(issue) => front + [issue]
  }

  lemma {:induction false} SomesConcat(a: seq<Option<Issue>>, b: seq<Option<Issue>>)
    ensures Somes(a + b) == Somes(a) + Somes(b)
    decreases |b|
  {
    if b == [] {
      assert a + b == a;
    } else {
      var b' := b[..|b| - 1];
      assert (a + b)[..|a + b| - 1] == a + b';
      assert (a + b)[|a + b| - 1] == b[|b| - 1];
      SomesConcat(a, b');
    }
  }

  lemma {:induction false} SomesFrom(opts: seq<Option<Issue>>, i: nat)
    requires i < |Somes(opts)|
    ensures exists k :: 0 <= k < |opts| && opts[k] == Some(Somes(opts)[i])
    decreases |opts|
  {
    var front := opts[..|opts| - 1];
    if i < |Somes(front)| {
      assert Somes(opts)[i] == Somes(front)[i];
      SomesFrom(front, i);
      var k :| 0 <= k < |front| && front[k] == Some(Somes(front)[i]);
      assert opts[k] == front[k];
    } else {
      assert opts[|opts| - 1] == Some(Somes(opts)[i]);
    }
  }

  /** What the parser reads from each line. */
  function Parsed(lines: seq<string>): (r: seq<Option<Issue>>)
    ensures |r| == |lines|
    ensures forall k :: 0 <= k < |lines| ==> r[k] == ParseLine(lines[k])
  {
    seq(|lines|, k requires 0 <= k < |lines| => ParseLine(lines[k]))
  }

  lemma ParsedConcat(a: seq<string>, b: seq<string>)
    ensures Parsed(a + b) == Parsed(a) + Parsed(b)
  {
    assert forall k :: 0 <= k < |a + b| ==> Parsed(a + b)[k] == (Parsed(a) + Parsed(b))[k] by {
      forall k | 0 <= k < |a + b| ensures Parsed(a + b)[k] == (Parsed(a) + Parsed(b))[k] {
        if k < |a| { assert (a + b)[k] == a[k]; } else { assert (a + b)[k] == b[k - |a|]; }
      }
    }
  }

  /** The issues of a run of lines, in line order. */
  function IssuesOf(lines: seq<string>): (issues: seq<Issue>)
    ensures |issues| <= |lines|
    ensures (forall k :: 0 <= k < |lines| ==> !Examined(lines[k])) ==> issues == []
  {
    Somes(Parsed(lines))
  }

  /** Each issue is what the parser reads from one of the lines. */
  lemma IssuesFromLines(lines: seq<string>, i: nat)
    requires i < |IssuesOf(lines)|
    ensures exists k :: 0 <= k < |lines| && ParseLine(lines[k]) == Some(IssuesOf(lines)[i])
  {
    SomesFrom(Parsed(lines), i);
  }

  /** Issues of consecutive runs of lines come one run after the other. */
  lemma IssuesOfConcat(a: seq<string>, b: seq<string>)
    ensures IssuesOf(a + b) == IssuesOf(a) + IssuesOf(b)
  {
    ParsedConcat(a, b);
    SomesConcat(Parsed(a), Parsed(b));
  }

  /** Every examined line yields an issue, so the issues are as many as the
      examined lines. */
  function ExaminedCount(lines: seq<string>): nat {
    if lines == [] then 0
    else ExaminedCount(lines[..|lines| - 1]) + (if Examined(lines[|lines| - 1]) then 1 else 0)
  }

  lemma {:induction false} IssuesOfCount(lines: seq<string>)
    ensures |IssuesOf(lines)| == ExaminedCount(lines)
  {
    if lines != [] {
      var front := lines[..|lines| - 1];
      var last := lines[|lines| - 1];
      assert IssuesOf(lines) == IssuesOf(front) + LineIssues(last) by {
        assert lines == front + [last];
        IssuesOfConcat(front, [last]);
        IssuesOfOne(last);
      }
      IssuesOfCount(front);
    }
  }

  /** The result of the analyzer process. */
  datatype Process = Process(stdout: string, stderr: string, exitCode: int)

  /** The lines the parser reads: the standard output's, then the standard
      error's. */
  function OutputLines(p: Process): seq<string> {
    SplitLines(p.stdout) + SplitLines(p.stderr)
  }

  /** The issues of a finished run: none when it exited with 0, whatever it
      printed. */
  function Issues(p: Process): (issues: seq<Issue>)
    ensures p.exitCode == 0 ==> issues == []
    ensures p.exitCode != 0 ==> issues == IssuesOf(SplitLines(p.stdout)) + IssuesOf(SplitLines(p.stderr))
  {
    if p.exitCode == 0 then []
    else
      IssuesOfConcat(SplitLines(p.stdout), SplitLines(p.stderr));
      IssuesOf(OutputLines(p))
  }

  /** The issue one line yields, if any. */
  function LineIssues(line: string): (r: seq<Issue>)
    ensures |r| == if Examined(line) then 1 else 0
  {
    match ParseLine(line)
    case None => []
    case Some(issue) => [issue]
  }

  lemma IssuesOfOne(line: string)
    ensures IssuesOf([line]) == LineIssues(line)
  {
    var p := Parsed([line]);
    assert p == [ParseLine(line)];
    assert p[..0] == [];
  }

  /** One more line adds its issue, if it yields one, at the end. */
  lemma IssuesOfStep(lines: seq<string>, i: nat)
    requires i < |lines|
    ensures IssuesOf(lines[..i + 1]) == IssuesOf(lines[..i]) + LineIssues(lines[i])
  {
    assert lines[..i + 1] == lines[..i] + [lines[i]];
    IssuesOfConcat(lines[..i], [lines[i]]);
    IssuesOfOne(lines[i]);
  }

  /** The loop over the output lines. */
  method ParseIssues(lines: seq<string>) returns (issues: seq<Issue>)
    ensures issues == IssuesOf(lines)
  {
    issues := [];
    for i := 0 to |lines|
      invariant issues == IssuesOf(lines[..i])
    {
      IssuesOfStep(lines, i);
      var parsed := ParseLine(lines[i]);
      if parsed.Some? {
        issues := issues + [parsed.value];
      }
      assert issues == IssuesOf(lines[..i]) + LineIssues(lines[i]);
    }
    assert lines[..|lines|] == lines;
  }

  // ---------------------------------------------------------------------
  // One file

  /** The report `run_dart_analyze` returns and saves. */
  datatype AnalysisReport = AnalysisReport(filename: string, exitCode: int, issues: seq<Issue>, issuesCount: nat, success: bool)

  function ReportOf(filename: string, p: Process): (r: AnalysisReport)
    ensures r.filename == filename && r.exitCode == p.exitCode
    ensures r.issuesCount == |r.issues|
    ensures r.success <==> p.exitCode == 0
    ensures r.success ==> r.issues == [] && r.issuesCount == 0
  {
    var issues := Issues(p);
    AnalysisReport(filename, p.exitCode, issues, |issues|, p.exitCode == 0)
  }

  datatype AnalyzeResult =
    | Analyzed(report: AnalysisReport)
    | AnalyzeFailed(error: string)

  const FailurePrefix := "Dart 파일 분석 실패: "

  /** The `"message"` that accompanies a failure. */
  function FailureMessage(error: string): string {
    FailurePrefix + error
  }

  /** `result.get("issues_count", 0)` */
  function IssuesCount(r: AnalyzeResult): nat {
    if r.Analyzed? then r.report.issuesCount else 0
  }

  const ReportsDir := "analysis_reports/"
  const JsonMimeType := "application/json"

  function ReportPath(filename: string): string {
    ReportsDir + filename + "_analysis.json"
  }

  /** The `TypeError` of writing a non-string to a text file. */
  function WriteError(content: Json): string {
    "write() argument must be str, not " + (if content.JNull? then "None" else TypeName(content))
  }

  /** Whether the run gets as far as saving the report: the content was a
      string and the analyzer ran. */
  predicate SaveAttempted(content: Json, process: Call<Process>) {
    content.JStr? && process.Returned?
  }

  /** The outcome of `run_dart_analyze`: any failure on the way — writing the
      content, running the analyzer, saving the report — becomes the
      failure result with that error. */
  function AnalyzeRun(content: Json, filename: string, process: Call<Process>, save: Call<int>): (r: AnalyzeResult)
    ensures r.Analyzed? <==> SaveAttempted(content, process) && save.Returned?
    ensures r.Analyzed? ==> r.report == ReportOf(filename, process.value)
    ensures !content.JStr? ==> r == AnalyzeFailed(WriteError(content))
    ensures content.JStr? && process.Raised? ==> r == AnalyzeFailed(process.error)
    ensures SaveAttempted(content, process) && save.Raised? ==> r == AnalyzeFailed(save.error)
  {
    if !content.JStr? then AnalyzeFailed(WriteError(content))
    else if process.Raised? then AnalyzeFailed(process.error)
    else if save.Raised? then AnalyzeFailed(save.error)
    else Analyzed(ReportOf(filename, process.value))
  }

  /** The report artifacts a run adds: one exactly when the save succeeds. */
  function SavedBy(content: Json, filename: string, process: Call<Process>, save: Call<int>): (r: seq<Artifact>)
    ensures r == [] || r == [Artifact(ReportPath(filename), JsonMimeType)]
    ensures r != [] <==> AnalyzeRun(content, filename, process, save).Analyzed?
  {
    if SaveAttempted(content, process) && save.Returned? then [Artifact(ReportPath(filename), JsonMimeType)] else []
  }

  /** `run_dart_analyze(file_content, filename, tool_context)` */
  method RunDartAnalyze(ctx: ToolContext, content: Json, filename: string, process: Call<Process>, save: Call<int>)
    returns (r: AnalyzeResult)
    modifies ctx
    ensures r == AnalyzeRun(content, filename, process, save)
    ensures ctx.state == old(ctx.state)
    ensures ctx.artifacts == old(ctx.artifacts) + SavedBy(content, filename, process, save)
  {
    if !content.JStr? {
      return AnalyzeFailed(WriteError(content));
    }
    if process.Raised? {
      return AnalyzeFailed(process.error);
    }
    var p := process.value;
    var issues: seq<Issue> := [];
    if p.exitCode != 0 {
      issues := ParseIssues(OutputLines(p));
    }
    var report := AnalysisReport(filename, p.exitCode, issues, |issues|, p.exitCode == 0);
    var saved := ctx.SaveArtifact(ReportPath(filename), JsonMimeType, save);
    if saved.Raised? {
      return AnalyzeFailed(saved.error);
    }
    r := Analyzed(report);
  }

  // ---------------------------------------------------------------------
  // All files

  /** The `.dart` names among the artifacts, in their order. */
  function DartFiles(names: seq<string>): (r: seq<string>)
    ensures |r| <= |names|
    ensures forall k :: 0 <= k < |r| ==> EndsWith(r[k], ".dart") && r[k] in names
    ensures forall k :: 0 <= k < |names| && EndsWith(names[k], ".dart") ==> names[k] in r
  {
    if names == [] then []
    else
      var front := DartFiles(names[..|names| - 1]);
      assert forall k :: 0 <= k < |names| - 1 ==> names[..|names| - 1][k] == names[k];
      var last := names[|names| - 1];
      if EndsWith(last, ".dart") then front + [last] else front
  }

  /** What the environment does for the k-th `.dart` file: reading it, and,
      if it is analysed, running the analyzer and saving the report. */
  datatype FileEnv = FileEnv(read: Call<Json>, process: Call<Process>, save: Call<int>)

  /** The loop's variables after some files: the results, the issue total,
      the reports saved, and the error that ended the loop, if any. */
  datatype Progress = Progress(results: seq<AnalyzeResult>, totalIssues: nat, saved: seq<Artifact>, error: Option<string>)

  /** One pass of the loop: a failing read ends it, empty content is
      skipped, anything else is analysed. */
  function Step(p: Progress, name: string, e: FileEnv): Progress {
    if p.error.Some? then p
    else if e.read.Raised? then p.(error := Some(e.read.error))
    else if !Truthy(e.read.value) then p
    else
      var r := AnalyzeRun(e.read.value, name, e.process, e.save);
      Progress(p.results + [r], p.totalIssues + IssuesCount(r),
               p.saved + SavedBy(e.read.value, name, e.process, e.save), None)
  }

  function ProgressAfter(files: seq<string>, env: nat -> FileEnv, n: nat): Progress
    requires n <= |files|
  {
    if n == 0 then Progress([], 0, [], None)
    else Step(ProgressAfter(files, env, n - 1), files[n - 1], env(n - 1))
  }

  /** Once a read has failed, later files change nothing. */
  lemma {:induction false} ProgressAfterError(files: seq<string>, env: nat -> FileEnv, i: nat, n: nat)
    requires i <= n <= |files| && ProgressAfter(files, env, i).error.Some?
    ensures ProgressAfter(files, env, n) == ProgressAfter(files, env, i)
    decreases n
  {
    if n > i {
      ProgressAfterError(files, env, i, n - 1);
    }
  }

  /** The sum of the issue counts of some results. */
  function SumCounts(results: seq<AnalyzeResult>): nat {
    if results == [] then 0 else SumCounts(results[..|results| - 1]) + IssuesCount(results[|results| - 1])
  }

  /** The total is the sum of the per-file counts, failed files counting 0;
      at most one result per file; and a report is saved for exactly the
      files analysed cleanly, in their order. */
  lemma {:induction false} ProgressTotals(files: seq<string>, env: nat -> FileEnv, n: nat)
    requires n <= |files|
    ensures var p := ProgressAfter(files, env, n);
      p.totalIssues == SumCounts(p.results) && |p.results| <= n
    ensures var p := ProgressAfter(files, env, n);
      |p.saved| == |Successes(p.results)|
  {
    if n > 0 {
      ProgressTotals(files, env, n - 1);
      var p := ProgressAfter(files, env, n - 1);
      var e := env(n - 1);
      if p.error.None? && e.read.Returned? && Truthy(e.read.value) {
        var r := AnalyzeRun(e.read.value, files[n - 1], e.process, e.save);
        assert (p.results + [r])[..|p.results|] == p.results;
        SuccessesAppend(p.results, r);
      }
    }
  }

  /** The reports among some results. */
  function Successes(results: seq<AnalyzeResult>): seq<AnalysisReport> {
    if results == [] then []
    else
      var front := Successes(results[..|results| - 1]);
      var last := results[|results| - 1];
      if last.Analyzed? then front + [last.report] else front
  }

  lemma SuccessesAppend(results: seq<AnalyzeResult>, r: AnalyzeResult)
    ensures Successes(results + [r]) == Successes(results) + (if r.Analyzed? then [r.report] else [])
  {
    assert (results + [r])[..|results|] == results;
  }

  datatype Summary =
    | Summary(message: string, analyzedFiles: nat, totalIssues: nat, allPassed: bool, results: seq<AnalyzeResult>)
    | SummaryFailed(error: string, message: string)

  const NoFilesMessage := "분석할 Dart 파일이 없습니다."

  function DoneMessage(files: nat, issues: nat): string {
    NatToString(files) + "개 파일 분석 완료, 총 " + NatToString(issues) + "개 이슈 발견"
  }

  /** `result.get("passed", False)`: neither a report nor a failure result
      has a `"passed"` key. */
  function PassedField(r: AnalyzeResult): bool {
    false
  }

  /** `all(result.get("passed", False) for result in results)` */
  predicate AllPassed(results: seq<AnalyzeResult>) {
    forall k :: 0 <= k < |results| ==> PassedField(results[k])
  }

  /** As written, the summary reports all passed exactly when no file was
      analysed. */
  lemma AllPassedIffNothingAnalysed(results: seq<AnalyzeResult>)
    ensures AllPassed(results) <==> results == []
  {
    if results != [] {
      assert !PassedField(results[0]);
    }
  }

  /** A single file analysed without a finding is still reported as not
      passed. */
  lemma CleanRunNotPassed()
    ensures !AllPassed([Analyzed(AnalysisReport("lib/main.dart", 0, [], 0, true))])
  {
    var results := [Analyzed(AnalysisReport("lib/main.dart", 0, [], 0, true))];
    assert !PassedField(results[0]);
  }

  /** What `all_passed` evidently means: every analysed file was analysed
      and its analyzer exited with 0. */
  predicate IntendedAllPassed(results: seq<AnalyzeResult>) {
    forall k :: 0 <= k < |results| ==> results[k].Analyzed? && results[k].report.success
  }

  /** When every file passed, no issue was found. */
  lemma {:induction false} IntendedAllPassedNoIssues(results: seq<AnalyzeResult>)
    requires forall k :: 0 <= k < |results| ==> results[k].Analyzed? ==> results[k].report.issuesCount == |results[k].report.issues|
    requires forall k :: 0 <= k < |results| ==> results[k].Analyzed? ==> (results[k].report.success ==> results[k].report.issues == [])
    ensures IntendedAllPassed(results) ==> SumCounts(results) == 0
    ensures IntendedAllPassed([Analyzed(AnalysisReport("lib/main.dart", 0, [], 0, true))])
  {
    if results != [] && IntendedAllPassed(results) {
      var front := results[..|results| - 1];
      assert forall k :: 0 <= k < |front| ==> front[k] == results[k];
      IntendedAllPassedNoIssues(front);
    }
  }

  /** The outcome of `analyze_dart_files`, given the artifact names at the
      start and the environment of each `.dart` file. */
  function SummaryOf(names: seq<string>, env: nat -> FileEnv): (s: Summary)
    ensures DartFiles(names) == [] ==> s == Summary(NoFilesMessage, 0, 0, true, [])
    ensures s.Summary? ==> s.analyzedFiles == |s.results| && s.totalIssues == SumCounts(s.results)
    ensures s.Summary? ==> s.message == DoneMessage(s.analyzedFiles, s.totalIssues) || DartFiles(names) == []
    ensures s.SummaryFailed? ==> s.message == FailureMessage(s.error)
    ensures s.Summary? ==> (s.allPassed <==> s.results == [])
  {
    var files := DartFiles(names);
    if files == [] then Summary(NoFilesMessage, 0, 0, true, [])
    else
      var p := ProgressAfter(files, env, |files|);
      ProgressTotals(files, env, |files|);
      AllPassedIffNothingAnalysed(p.results);
      Conclude(p)
  }

  /** The dictionary returned once the loop is over or has been ended by an
      error. */
  function Conclude(p: Progress): Summary {
    match p.error
    case Some(e) => SummaryFailed(e, FailureMessage(e))
    case None => Summary(DoneMessage(|p.results|, p.totalIssues), |p.results|, p.totalIssues, AllPassed(p.results), p.results)
  }

  /** The reports `analyze_dart_files` saves along the way, kept even when a
      later read fails. */
  function SummarySaved(names: seq<string>, env: nat -> FileEnv): seq<Artifact> {
    var files := DartFiles(names);
    ProgressAfter(files, env, |files|).saved
  }

  /** The reports one pass of the loop saves, once the file has been read. */
  function PassSaved(name: string, e: FileEnv): seq<Artifact>
    requires e.read.Returned?
  {
    if Truthy(e.read.value) then SavedBy(e.read.value, name, e.process, e.save) else []
  }

  /** One pass of the loop over a file that was read: empty content is
      skipped, anything else goes through `run_dart_analyze`. */
  method AnalyzePass(ctx: ToolContext, p: Progress, name: string, e: FileEnv) returns (q: Progress)
    requires p.error.None? && e.read.Returned?
    modifies ctx
    ensures q == Step(p, name, e) && q.error.None?
    ensures q.saved == p.saved + PassSaved(name, e)
    ensures ctx.state == old(ctx.state)
    ensures ctx.artifacts == old(ctx.artifacts) + PassSaved(name, e)
  {
    var content := e.read.value;
    if !Truthy(content) {
      return p;
    }
    var r := RunDartAnalyze(ctx, content, name, e.process, e.save);
    q := Progress(p.results + [r], p.totalIssues + IssuesCount(r), p.saved + SavedBy(content, name, e.process, e.save), None);
  }

  /** The loop of `analyze_dart_files` over the `.dart` names, ended early
      by a failing read. */
  method AnalyzeEach(ctx: ToolContext, files: seq<string>, env: nat -> FileEnv) returns (p: Progress)
    modifies ctx
    ensures p == ProgressAfter(files, env, |files|)
    ensures ctx.state == old(ctx.state)
    ensures ctx.artifacts == old(ctx.artifacts) + p.saved
  {
    p := Progress([], 0, [], None);
    for i := 0 to |files|
      invariant p == ProgressAfter(files, env, i) && p.error.None?
      invariant ctx.state == old(ctx.state)
      invariant ctx.artifacts == old(ctx.artifacts) + p.saved
    {
      var e := env(i);
      if e.read.Raised? {
        ProgressAfterError(files, env, i + 1, |files|);
        return p.(error := Some(e.read.error));
      }
      ghost var before := ctx.artifacts;
      p := AnalyzePass(ctx, p, files[i], e);
      assert ctx.artifacts == old(ctx.artifacts) + p.saved by {
        assert before + PassSaved(files[i], e) == old(ctx.artifacts) + p.saved;
      }
    }
  }

  /** `analyze_dart_files(tool_context)` */
  method AnalyzeDartFiles(ctx: ToolContext, env: nat -> FileEnv) returns (s: Summary)
    modifies ctx
    ensures s == SummaryOf(old(ctx.ListArtifacts()), env)
    ensures ctx.state == old(ctx.state)
    ensures ctx.artifacts == old(ctx.artifacts) + SummarySaved(old(ctx.ListArtifacts()), env)
  {
    var names := ctx.ListArtifacts();
    var files := DartFiles(names);
    if files == [] {
      return Summary(NoFilesMessage, 0, 0, true, []);
    }
    var p := AnalyzeEach(ctx, files, env);
    s := Conclude(p);
  }
}
