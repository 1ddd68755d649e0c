/** The six Android file tools of the Android group and its registration.
    Each `create_*` tool reads the session state, renders a fixed template,
    saves one artifact and answers with a dictionary; any exception becomes
    a failure answer. The template bodies are constant text and are not
    kept; the outcome of the save is a parameter. */
module AndroidGroup {
  import opened Outcomes
  import opened Json
  import opened Tools
  import opened PackageSlug
  import opened AgentTree
  import JobServer
  import P = AndroidPaths

  /** The six tools, in the order the group lists their agents. */
  datatype FileTool = BuildGradle | AppBuildGradle | SettingsGradle | MainActivity | Manifest | Strings

  const AllTools: seq<FileTool> := [BuildGradle, AppBuildGradle, SettingsGradle, MainActivity, Manifest, Strings]

  const DefaultAppName := JStr("flutter_app")

  /** `state.get("app_name", "flutter_app")`, lower-cased, with `-` and space
      replaced by `_`; a value that is not a string has no `lower`. */
  function AppNameSlug(state: map<string, Json>): (r: Result<string>)
    ensures r.Ok? <==> Get(state, "app_name", DefaultAppName).JStr?
    ensures r.Ok? ==> r == Ok(Slug(Get(state, "app_name", DefaultAppName).s))
  {
    var appName := Get(state, "app_name", DefaultAppName);
    if appName.JStr? then Ok(Slug(appName.s)) else Err(NoAttribute(appName, "lower"))
  }

  /** `state.get("app_spec", {}).get("app_name", "Flutter App")`; a spec
      that is not a dictionary has no `get`. */
  function StringsAppName(state: map<string, Json>): (r: Result<Json>)
    ensures r.Ok? <==> Get(state, "app_spec", JObject(map[])).JObject?
    ensures "app_spec" !in state ==> r == Ok(JStr("Flutter App"))
  {
    var appSpec := Get(state, "app_spec", JObject(map[]));
    if appSpec.JObject? then Ok(Get(appSpec.fields, "app_name", JStr("Flutter App")))
    else Err(NoAttribute(appSpec, "get"))
  }

  /** The file a tool saves, or the error its reading of the state raises
      before the save. The project and settings `build.gradle` tools never
      fail here; the app `build.gradle`, `MainActivity.kt` and manifest tools
      lower-case `app_name`; the strings tool reads the app spec instead. */
  function Target(t: FileTool, state: map<string, Json>): (r: Result<string>)
    ensures t in {BuildGradle, SettingsGradle} ==> r.Ok?
    ensures t in {AppBuildGradle, MainActivity, Manifest} ==> (r.Ok? <==> AppNameSlug(state).Ok?)
    ensures t == Strings ==> (r.Ok? <==> StringsAppName(state).Ok?)
  {
    match t
    case BuildGradle => Ok(P.ProjectBuildGradle)
    case AppBuildGradle =>
      (match AppNameSlug(state)
       case Ok(_) => Ok(P.AppBuildGradle)
       case Err(e) => Err(e))
    case SettingsGradle => Ok(P.SettingsGradle)
    case MainActivity =>
      (match AppNameSlug(state)
       case Ok(slug) => Ok(P.MainActivityPath(slug))
       case Err(e) => Err(e))
    case Manifest =>
      (match AppNameSlug(state)
       case Ok(_) => Ok(P.Manifest)
       case Err(e) => Err(e))
    case Strings =>
      (match StringsAppName(state)
       case Ok(_) => Ok(P.StringsXml)
       case Err(e) => Err(e))
  }

  function MimeType(t: FileTool): string {
    match t
    case BuildGradle => "text/x-gradle"
    case AppBuildGradle => "text/x-gradle"
    case SettingsGradle => "text/x-gradle"
    case MainActivity => "text/x-kotlin"
    case Manifest => "application/xml"
    case Strings => "application/xml"
  }

  function DoneMessage(t: FileTool): string {
    match t
    case BuildGradle => "안드로이드 프로젝트 build.gradle 파일 생성 완료"
    case AppBuildGradle => "안드로이드 앱 build.gradle 파일 생성 완료"
    case SettingsGradle => "안드로이드 settings.gradle 파일 생성 완료"
    case MainActivity => "안드로이드 MainActivity.kt 파일 생성 완료"
    case Manifest => "안드로이드 AndroidManifest.xml 파일 생성 완료"
    case Strings => "안드로이드 strings.xml 파일 생성 완료"
  }

  function FailedPrefix(t: FileTool): string {
    match t
    case BuildGradle => "안드로이드 build.gradle 생성 실패: "
    case AppBuildGradle => "안드로이드 앱 build.gradle 생성 실패: "
    case SettingsGradle => "안드로이드 settings.gradle 생성 실패: "
    case MainActivity => "안드로이드 MainActivity.kt 생성 실패: "
    case Manifest => "안드로이드 AndroidManifest.xml 생성 실패: "
    case Strings => "안드로이드 strings.xml 생성 실패: "
  }

  /** The dictionary a tool returns: `{success: True, file, message}` or
      `{success: False, error, message}`. */
  datatype CreateReply = Created(file: string, message: string) | CreateFailed(error: string, message: string)

  /** The answer of a tool: it succeeds exactly when reading the state and
      the save both succeed, and then names the file it saved; otherwise the
      error is the one raised first, and the message carries it. */
  function CreateReplyOf(t: FileTool, state: map<string, Json>, saveOutcome: Call<int>): (r: CreateReply)
    ensures r.Created? <==> Target(t, state).Ok? && saveOutcome.Returned?
    ensures r.Created? ==> r.file == Target(t, state).value && r.message == DoneMessage(t)
    ensures r.CreateFailed? ==> r.message == FailedPrefix(t) + r.error
    ensures r.CreateFailed? && Target(t, state).Err? ==> r.error == Target(t, state).error
    ensures r.CreateFailed? && Target(t, state).Ok? ==> r.error == saveOutcome.error
  {
    match Target(t, state)
    case Err(e) => CreateFailed(e, FailedPrefix(t) + e)
    case Ok(f) =>
      match saveOutcome
      case Raised(e) => CreateFailed(e, FailedPrefix(t) + e)
      case Returned(_) => Created(f, DoneMessage(t))
  }

  /** One `create_*` tool run against a tool context: at most one artifact,
      the file the answer names, is saved, and the state is not touched. */
  method Create(ctx: ToolContext, t: FileTool, saveOutcome: Call<int>) returns (reply: CreateReply)
    modifies ctx
    ensures reply == CreateReplyOf(t, old(ctx.state), saveOutcome)
    ensures ctx.state == old(ctx.state)
    ensures ctx.artifacts == old(ctx.artifacts) + (if reply.Created? then [Artifact(reply.file, MimeType(t))] else [])
  {
    var target := Target(t, ctx.state);
    if target.Err? {
      return CreateFailed(target.error, FailedPrefix(t) + target.error);
    }
    var saved := ctx.SaveArtifact(target.value, MimeType(t), saveOutcome);
    if saved.Raised? {
      return CreateFailed(saved.error, FailedPrefix(t) + saved.error);
    }
    reply := Created(target.value, DoneMessage(t));
  }

  /** The file each tool saves, for a given package slug. */
  function FileName(t: FileTool, slug: string): string {
    match t
    case BuildGradle => P.ProjectBuildGradle
    case AppBuildGradle => P.AppBuildGradle
    case SettingsGradle => P.SettingsGradle
    case MainActivity => P.MainActivityPath(slug)
    case Manifest => P.Manifest
    case Strings => P.StringsXml
  }

  /** A tool that gets past its reading of the state saves the file of the
      table above, for the slug of the state's `app_name`. */
  lemma TargetFile(state: map<string, Json>, t: FileTool, slug: string)
    requires AppNameSlug(state) == Ok(slug) && Target(t, state).Ok?
    ensures Target(t, state).value == FileName(t, slug)
  {
  }

  /** Without an `app_name` in the state the `MainActivity.kt` tool writes
      under the default package `flutter_app`. */
  lemma DefaultMainActivityPath(state: map<string, Json>)
    requires "app_name" !in state
    ensures Target(MainActivity, state) == Ok(P.MainActivityPath("flutter_app"))
  {
    assert AppNameSlug(state) == Ok(Slug("flutter_app"));
    DefaultNameSlug();
  }

  /** Every file in the table is one of the eleven Android files the job
      server lists for the same slug. */
  lemma FileNameAmongServerFiles(t: FileTool, slug: string)
    ensures FileName(t, slug) in JobServer.AndroidFiles(slug)
  {
    var android := JobServer.AndroidFiles(slug);
    match t
    case BuildGradle => assert android[0] == FileName(t, slug);
    case AppBuildGradle => assert android[3] == FileName(t, slug);
    case SettingsGradle => assert android[1] == FileName(t, slug);
    case MainActivity => assert android[5] == FileName(t, slug);
    case Manifest => assert android[4] == FileName(t, slug);
    case Strings => assert android[6] == FileName(t, slug);
  }

  /** Every file a tool saves is one of the job server's Android files for
      the same app name. */
  lemma TargetsAmongServerFiles(state: map<string, Json>, t: FileTool)
    requires AppNameSlug(state).Ok? && Target(t, state).Ok?
    ensures Target(t, state).value in JobServer.AndroidFiles(AppNameSlug(state).value)
  {
    TargetFile(state, t, AppNameSlug(state).value);
    FileNameAmongServerFiles(t, AppNameSlug(state).value);
  }

  /** Two different tools never save the same file, whatever the slug. */
  lemma FileNamesDistinct(t1: FileTool, t2: FileTool, slug: string)
    requires t1 != t2
    ensures FileName(t1, slug) != FileName(t2, slug)
  {
    if t1 == MainActivity || t2 == MainActivity {
      var other := if t1 == MainActivity then FileName(t2, slug) else FileName(t1, slug);
      var kotlin := P.MainActivityPath(slug);
      assert kotlin[21] == 'k';
      assert |other| <= 21 || other[21] != 'k';
    }
  }

  // The leaf agents, one per tool, and the group.

  function ToolAgent(t: FileTool): (a: AgentNode)
    ensures a.Leaf?
  {
    match t
    case BuildGradle => Leaf("AndroidBuildGradleAgent")
    case AppBuildGradle => Leaf("AndroidAppBuildGradleAgent")
    case SettingsGradle => Leaf("AndroidSettingsGradleAgent")
    case MainActivity => Leaf("AndroidMainActivityAgent")
    case Manifest => Leaf("AndroidManifestAgent")
    case Strings => Leaf("AndroidStringsAgent")
  }

  /** The group built at import time. */
  const AndroidGroupAgent := Group(Llm, "AndroidGroupAgent", "안드로이드 파일 생성 작업을 병렬로 수행하는 에이전트 그룹",
    [Leaf("AndroidBuildGradleAgent"), Leaf("AndroidAppBuildGradleAgent"), Leaf("AndroidSettingsGradleAgent"),
     Leaf("AndroidMainActivityAgent"), Leaf("AndroidManifestAgent"), Leaf("AndroidStringsAgent")])

  /** `register_android_agents`: the six tool agents in the tools' order, in
      a plain group named `AndroidGroupAgent`, whatever the spec holds and
      whether or not the constructor raises. */
  function RegisterAndroidAgents(appSpec: Json, raised: Option<string>): (g: AgentNode)
    ensures g == AndroidGroupAgent
    ensures g.Group? && g.kind == Llm && g.name == "AndroidGroupAgent"
    ensures |g.children| == |AllTools| && forall k :: 0 <= k < |AllTools| ==> g.children[k] == ToolAgent(AllTools[k])
  {
    var agents := [ToolAgent(BuildGradle), ToolAgent(AppBuildGradle), ToolAgent(SettingsGradle),
                   ToolAgent(MainActivity), ToolAgent(Manifest), ToolAgent(Strings)];
    if raised.Some? then AndroidGroupAgent
    else Group(Llm, "AndroidGroupAgent", "안드로이드 파일 생성 작업을 병렬로 수행하는 에이전트 그룹", agents)
  }
}
