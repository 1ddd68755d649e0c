/** `test_android_build_files`, the tool of the Android test agent: it
    checks a fixed list of nine Android files against the names of the
    artifacts saved in the session, writes a Markdown report, saves it and
    answers with the counts. The session id is only logged; whether reading
    it raises, and the outcome of the save, are parameters. */
module AndroidTest {
  import opened Outcomes
  import opened Text
  import opened Json
  import opened Tools
  import AndroidGroup
  import JobServer
  import P = AndroidPaths

  /** The placeholder the `MainActivity.kt` entry carries for the package slug. */
  const Placeholder := "{app_name_slug}"

  /** The required files, in the order they are checked. */
  const RequiredFiles: seq<string> := [
    P.ProjectBuildGradle,
    P.SettingsGradle,
    P.AppBuildGradle,
    P.Manifest,
    P.KotlinDir + Placeholder + "/MainActivity.kt",
    P.StringsXml,
    P.LaunchBackground,
    P.LaunchBackgroundV21,
    P.GradleWrapper]

  /** `file_path.replace("{app_name_slug}", app_name_slug)` */
  function ActualPath(p: string, slug: string): string {
    ReplaceAll(p, Placeholder, slug)
  }

  function ActualPaths(slug: string): (r: seq<string>)
    ensures |r| == |RequiredFiles| && forall k :: 0 <= k < |r| ==> r[k] == ActualPath(RequiredFiles[k], slug)
  {
    seq(|RequiredFiles|, k requires 0 <= k < |RequiredFiles| => ActualPath(RequiredFiles[k], slug))
  }

  // No fixed path holds the placeholder's opening brace.
  lemma ProjectPathsPlain() ensures '{' !in P.ProjectBuildGradle && '{' !in P.SettingsGradle && '{' !in P.GradleWrapper { }
  lemma AppPathsPlain() ensures '{' !in P.AppBuildGradle && '{' !in P.Manifest && '{' !in P.KotlinDir { }
  lemma ResourcePathsPlain() ensures '{' !in P.StringsXml && '{' !in P.LaunchBackground { }
  lemma ResourceV21PathPlain() ensures '{' !in P.LaunchBackgroundV21 { }

  /** Only the `MainActivity.kt` entry changes: it gets the slug as its
      package directory, the path the `MainActivity.kt` tool saves. */
  lemma ActualPathsExplicit(slug: string)
    ensures ActualPaths(slug) == [
      P.ProjectBuildGradle, P.SettingsGradle, P.AppBuildGradle, P.Manifest, P.MainActivityPath(slug),
      P.StringsXml, P.LaunchBackground, P.LaunchBackgroundV21, P.GradleWrapper]
  {
    ProjectPathsPlain();
    AppPathsPlain();
    ResourcePathsPlain();
    ResourceV21PathPlain();
    var actual := ActualPaths(slug);
    var expected := [
      P.ProjectBuildGradle, P.SettingsGradle, P.AppBuildGradle, P.Manifest, P.MainActivityPath(slug),
      P.StringsXml, P.LaunchBackground, P.LaunchBackgroundV21, P.GradleWrapper];
    forall k | 0 <= k < |RequiredFiles|
      ensures actual[k] == expected[k]
    {
      if k == 4 {
        var tail := "/MainActivity.kt";
        assert RequiredFiles[4] == P.KotlinDir + (Placeholder + tail);
        ReplaceAllSkip(P.KotlinDir, Placeholder + tail, Placeholder, slug);
        ReplaceAllFront(Placeholder, tail, slug);
        ReplaceAllAbsent(tail, Placeholder, slug);
      } else if k == 0 {
        ReplaceAllAbsent(P.ProjectBuildGradle, Placeholder, slug);
      } else if k == 1 {
        ReplaceAllAbsent(P.SettingsGradle, Placeholder, slug);
      } else if k == 2 {
        ReplaceAllAbsent(P.AppBuildGradle, Placeholder, slug);
      } else if k == 3 {
        ReplaceAllAbsent(P.Manifest, Placeholder, slug);
      } else if k == 5 {
        ReplaceAllAbsent(P.StringsXml, Placeholder, slug);
      } else if k == 6 {
        ReplaceAllAbsent(P.LaunchBackground, Placeholder, slug);
      } else if k == 7 {
        ReplaceAllAbsent(P.LaunchBackgroundV21, Placeholder, slug);
      } else {
        ReplaceAllAbsent(P.GradleWrapper, Placeholder, slug);
      }
    }
  }

  /** Each required file is one of the eleven Android files the job server
      lists for the same slug. */
  lemma RequiredAmongServerFiles(slug: string)
    ensures forall k :: 0 <= k < |RequiredFiles| ==> ActualPaths(slug)[k] in JobServer.AndroidFiles(slug)
  {
    ActualPathsExplicit(slug);
    var android := JobServer.AndroidFiles(slug);
    var actual := ActualPaths(slug);
    assert actual[0] == android[0] && actual[1] == android[1] && actual[2] == android[3];
    assert actual[3] == android[4] && actual[4] == android[5] && actual[5] == android[6];
    assert actual[6] == android[8] && actual[7] == android[9] && actual[8] == android[10];
  }

  function Exists(p: string): string { p + " 파일이 존재합니다." }
  function Missing(p: string): string { p + " 파일이 존재하지 않습니다." }

  /** The `passed` and `failed` lists of the test results. */
  datatype Checked = Checked(passed: seq<string>, failed: seq<string>)

  /** The lists after checking `paths` in order against the artifact names. */
  function Outcome(paths: seq<string>, present: seq<string>): Checked
    decreases |paths|
  {
    if paths == [] then Checked([], [])
    else
      var c := Outcome(paths[..|paths| - 1], present);
      var p := paths[|paths| - 1];
      if p in present then Checked(c.passed + [Exists(p)], c.failed)
      else Checked(c.passed, c.failed + [Missing(p)])
  }

  /** Every path lands in exactly one list, by membership in the artifact
      names: the counts add up, each path present yields a passed entry and
      each path absent a failed entry, and every entry comes from such a
      path. Nothing fails exactly when every path is present. */
  lemma {:induction false} OutcomePartition(paths: seq<string>, present: seq<string>)
    ensures |Outcome(paths, present).passed| + |Outcome(paths, present).failed| == |paths|
    ensures forall k :: 0 <= k < |paths| && paths[k] in present ==> Exists(paths[k]) in Outcome(paths, present).passed
    ensures forall k :: 0 <= k < |paths| && paths[k] !in present ==> Missing(paths[k]) in Outcome(paths, present).failed
    ensures forall x :: x in Outcome(paths, present).passed ==> exists k :: 0 <= k < |paths| && paths[k] in present && x == Exists(paths[k])
    ensures forall x :: x in Outcome(paths, present).failed ==> exists k :: 0 <= k < |paths| && paths[k] !in present && x == Missing(paths[k])
    ensures Outcome(paths, present).failed == [] <==> forall k :: 0 <= k < |paths| ==> paths[k] in present
    decreases |paths|
  {
    if paths != [] {
      var init := paths[..|paths| - 1];
      OutcomePartition(init, present);
      forall k | 0 <= k < |init| ensures init[k] == paths[k] { }
      var c := Outcome(paths, present);
      var p := paths[|paths| - 1];
      if p !in present {
        assert c.failed != [];
      }
    }
  }

  // The report.

  function Summary(total: nat, passed: seq<string>, failed: seq<string>): string {
    "\n# 안드로이드 빌드 파일 테스트 보고서\n\n## 요약\n- 총 테스트: " + NatToString(total)
      + "\n- 통과: " + NatToString(|passed|) + "\n- 실패: " + NatToString(|failed|)
      + "\n\n## 테스트 결과\n\n### 통과한 테스트\n" + (if passed == [] then "없음" else "") + "\n"
  }

  /** One line `<bullet><item>\n` per item, in order. */
  function Lines(bullet: string, items: seq<string>): string
    decreases |items|
  {
    if items == [] then "" else Lines(bullet, items[..|items| - 1]) + bullet + items[|items| - 1] + "\n"
  }

  const PassedBullet := "- ✅ "
  const FailedBullet := "- ❌ "
  const FailedHeading := "\n### 실패한 테스트\n"
  const AllPassedLine := "- 모든 테스트 통과\n"

  function FailedSection(failed: seq<string>): string {
    if failed == [] then AllPassedLine else Lines(FailedBullet, failed)
  }

  function ReportText(total: nat, c: Checked): string {
    Summary(total, c.passed, c.failed) + Lines(PassedBullet, c.passed) + FailedHeading + FailedSection(c.failed)
  }

  /** A non-empty list of lines starts with the bullet. */
  lemma {:induction false} LinesStartWithBullet(bullet: string, items: seq<string>)
    requires items != []
    ensures StartsWith(Lines(bullet, items), bullet)
    decreases |items|
  {
    var init := items[..|items| - 1];
    if init == [] {
      assert Lines(bullet, items) == bullet + items[0] + "\n";
    } else {
      LinesStartWithBullet(bullet, init);
      assert Lines(bullet, items)[..|bullet|] == Lines(bullet, init)[..|bullet|];
    }
  }

  /** The failed section is the all-passed line exactly when nothing failed;
      otherwise it is the failure lines. */
  lemma FailedSectionIff(failed: seq<string>)
    ensures FailedSection(failed) == AllPassedLine <==> failed == []
  {
    if failed != [] {
      LinesStartWithBullet(FailedBullet, failed);
      assert FailedSection(failed)[2] == '❌' != AllPassedLine[2];
    }
  }

  // The tool.

  const ReportPath := "test_reports/android_build_test_report.md"

  function DoneMessage(passed: nat, failed: nat): string {
    "안드로이드 빌드 파일 테스트 완료 (통과: " + NatToString(passed) + ", 실패: " + NatToString(failed) + ")"
  }

  function FailedMessage(e: string): string { "안드로이드 빌드 파일 테스트 실패: " + e }

  datatype TestReply =
    | TestDone(testPassed: bool, totalTests: nat, passedTests: nat, failedTests: nat, report: string, message: string)
    | TestFailed(error: string, message: string)

  /** The answer of the tool: an exception while reading the session id,
      lower-casing `app_name` or saving the report becomes a failure answer;
      otherwise the counts of the partition of the nine required files. */
  function TestRun(state: map<string, Json>, present: seq<string>, sessionId: Call<string>, saveOutcome: Call<int>): (r: TestReply)
    ensures r.TestDone? ==> r.totalTests == 9 && r.passedTests + r.failedTests == r.totalTests
    ensures r.TestDone? ==> (r.testPassed <==> r.failedTests == 0)
    ensures r.TestDone? ==> r.report == ReportPath && r.message == DoneMessage(r.passedTests, r.failedTests)
    ensures r.TestFailed? ==> r.message == FailedMessage(r.error)
    ensures r.TestDone? <==> sessionId.Returned? && AndroidGroup.AppNameSlug(state).Ok? && saveOutcome.Returned?
  {
    if sessionId.Raised? then TestFailed(sessionId.error, FailedMessage(sessionId.error))
    else
      match AndroidGroup.AppNameSlug(state)
      case Err(e) => TestFailed(e, FailedMessage(e))
      case Ok(slug) =>
        var c := Outcome(ActualPaths(slug), present);
        OutcomePartition(ActualPaths(slug), present);
        match saveOutcome
        case Raised(e) => TestFailed(e, FailedMessage(e))
        case Returned(_) =>
          TestDone(|c.failed| == 0, |RequiredFiles|, |c.passed|, |c.failed|, ReportPath, DoneMessage(|c.passed|, |c.failed|))
  }

  /** The test passes exactly when every required file, with the slug of
      `app_name` (default `flutter_app`), is among the artifact names. */
  lemma TestPassedIff(state: map<string, Json>, present: seq<string>, sessionId: Call<string>, saveOutcome: Call<int>)
    requires TestRun(state, present, sessionId, saveOutcome).TestDone?
    ensures TestRun(state, present, sessionId, saveOutcome).testPassed
      <==> forall k :: 0 <= k < |RequiredFiles| ==> ActualPaths(AndroidGroup.AppNameSlug(state).value)[k] in present
  {
    OutcomePartition(ActualPaths(AndroidGroup.AppNameSlug(state).value), present);
  }

  /** The check loop: each required path, with the slug substituted, is
      looked up among the artifact names. */
  method CheckRequired(ctx: ToolContext, slug: string) returns (c: Checked)
    ensures c == Outcome(ActualPaths(slug), ctx.ListArtifacts())
  {
    var passed: seq<string> := [];
    var failed: seq<string> := [];
    for i := 0 to |RequiredFiles|
      invariant Checked(passed, failed) == Outcome(ActualPaths(slug)[..i], ctx.ListArtifacts())
    {
      var actualPath := ReplaceAll(RequiredFiles[i], Placeholder, slug);
      var artifactExists := actualPath in ctx.ListArtifacts();
      if artifactExists {
        passed := passed + [Exists(actualPath)];
      } else {
        failed := failed + [Missing(actualPath)];
      }
      assert ActualPaths(slug)[..i + 1][..i] == ActualPaths(slug)[..i];
    }
    assert ActualPaths(slug)[..|RequiredFiles|] == ActualPaths(slug);
    c := Checked(passed, failed);
  }

  /** One of the report's loops: a bulleted line appended per item. */
  method AppendLines(front: string, bullet: string, items: seq<string>) returns (report: string)
    ensures report == front + Lines(bullet, items)
  {
    report := front;
    for i := 0 to |items|
      invariant report == front + Lines(bullet, items[..i])
    {
      assert items[..i + 1][..i] == items[..i];
      report := report + bullet + items[i] + "\n";
    }
    assert items[..|items|] == items;
  }

  /** The report is built by appending to the summary. */
  method WriteReport(total: nat, c: Checked) returns (report: string)
    ensures report == ReportText(total, c)
  {
    report := AppendLines(Summary(total, c.passed, c.failed), PassedBullet, c.passed);
    report := report + FailedHeading;
    if c.failed == [] {
      report := report + AllPassedLine;
    } else {
      report := AppendLines(report, FailedBullet, c.failed);
    }
  }

  /** `test_android_build_files(tool_context)`: the state is not touched;
      the report is saved when the checks get that far, and the text handed
      to the save is returned in `written`. */
  method TestAndroidBuildFiles(ctx: ToolContext, sessionId: Call<string>, saveOutcome: Call<int>)
    returns (reply: TestReply, written: Option<string>)
    modifies ctx
    ensures reply == TestRun(old(ctx.state), old(ctx.ListArtifacts()), sessionId, saveOutcome)
    ensures ctx.state == old(ctx.state)
    ensures ctx.artifacts == old(ctx.artifacts) + (if reply.TestDone? then [Artifact(ReportPath, "text/markdown")] else [])
    ensures written.Some? <==> sessionId.Returned? && AndroidGroup.AppNameSlug(old(ctx.state)).Ok?
    ensures written.Some? ==>
      written.value == ReportText(9, Outcome(ActualPaths(AndroidGroup.AppNameSlug(old(ctx.state)).value), old(ctx.ListArtifacts())))
  {
    written := None;
    var appName := Get(ctx.state, "app_name", AndroidGroup.DefaultAppName);
    if sessionId.Raised? {
      return TestFailed(sessionId.error, FailedMessage(sessionId.error)), None;
    }
    if !appName.JStr? {
      var e := NoAttribute(appName, "lower");
      return TestFailed(e, FailedMessage(e)), None;
    }
    var slug := ReplaceAll(ReplaceAll(Lower(appName.s), "-", "_"), " ", "_");
    var c := CheckRequired(ctx, slug);
    OutcomePartition(ActualPaths(slug), ctx.ListArtifacts());
    var total := |RequiredFiles|;
    var passedTests := |c.passed|;
    var failedTests := |c.failed|;
    var report := WriteReport(total, c);
    written := Some(report);
    var saved := ctx.SaveArtifact(ReportPath, "text/markdown", saveOutcome);
    if saved.Raised? {
      return TestFailed(saved.error, FailedMessage(saved.error)), written;
    }
    reply := TestDone(failedTests == 0, total, passedTests, failedTests, ReportPath, DoneMessage(passedTests, failedTests));
  }
}
