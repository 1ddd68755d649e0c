/** The HTTP server's in-memory job bookkeeping: the record map kept by the
    server, the submission route, the generation task it schedules, the read
    routes, the guards of the two download routes and the Android
    regeneration route. The job id, the clock and the outcome of filesystem
    calls are parameters. */
module JobServer {
  import opened Outcomes
  import opened Text
  import opened Json
  import opened PackageSlug
  import AndroidPaths

  // ---------------------------------------------------------------------
  // Records and replies
  // ---------------------------------------------------------------------

  datatype Status = Pending | Running | Completed | Failed

  function StatusName(s: Status): string {
    match s
    case Pending => "pending"
    case Running => "running"
    case Completed => "completed"
    case Failed => "failed"
  }

  /** One entry of the server's job map. */
  datatype Job = Job(
    jobId: string,
    folderName: string,
    appSpec: map<string, Json>,
    status: Status,
    progress: int,
    message: string,
    artifacts: seq<string>)

  /** The outcome of a route: its body, or the HTTP error it answers with. */
  datatype Reply<T> =
    | Answer(body: T)
    | NotFound(detail: string)     // 404
    | NotReady(detail: string)     // 400
    | ServerError(detail: string)  // 500

  /** What the status routes show of a record. */
  datatype JobView = JobView(jobId: string, status: string, progress: int, message: string, artifacts: seq<string>)

  function View(j: Job): JobView {
    JobView(j.jobId, StatusName(j.status), j.progress, j.message, j.artifacts)
  }

  datatype ServerStatus = ServerStatus(status: string, version: string, activeJobs: nat, completedJobs: nat, failedJobs: nat)

  const InitialMessage := "작업 초기화 중..."
  const CompletedMessage := "앱 생성 완료"
  const GenerationErrorPrefix := "앱 생성 중 오류 발생: "
  const SubmitErrorPrefix := "앱 생성 시작 중 오류 발생: "
  const AndroidRunningMessage := "안드로이드 빌드 파일 생성 중..."
  const AndroidCompletedMessage := "안드로이드 빌드 파일 생성 완료"
  const AndroidErrorPrefix := "안드로이드 빌드 파일 생성 중 오류 발생: "
  const NotCompletedDetail := "작업이 아직 완료되지 않았습니다."
  const NoRunnerDetail := "작업에 러너 객체가 없습니다."
  const ZipDirMissingDetail := "생성된 앱 파일을 찾을 수 없습니다."
  const ZipErrorPrefix := "ZIP 파일 생성 중 오류 발생: "

  function UnknownJobDetail(jobId: string): string {
    "작업 ID " + jobId + "를 찾을 수 없습니다."
  }

  /** Every record is stored under its own id. */
  ghost predicate KeyedById(jobs: map<string, Job>) {
    forall id :: id in jobs ==> jobs[id].jobId == id
  }

  // ---------------------------------------------------------------------
  // Submission
  // ---------------------------------------------------------------------

  const DefaultAppName := JStr("flutter_app")

  function AppName(appSpec: map<string, Json>): Json {
    Get(appSpec, "app_name", DefaultAppName)
  }

  /** `App_{app_name}_v{clock mod 10000}` */
  function FolderName(appName: Json, clock: nat): string {
    "App_" + Display(appName) + "_v" + NatToString(clock % 10000)
  }

  /** The record a submission stores: pending, at progress 0, with no artifacts. */
  function NewJob(jobId: string, appSpec: map<string, Json>, clock: nat): Job {
    Job(jobId, FolderName(AppName(appSpec), clock), appSpec, Pending, 0, InitialMessage, [])
  }

  datatype SubmitInfo = SubmitInfo(jobId: string, folderName: string, status: string, progress: int, message: string, artifacts: seq<string>)

  /** The record a request body leads to, or the error that ends the route:
      an unreadable body, or a body that is not an object (`.get` fails). */
  function SubmitRecord(body: Call<Json>, jobId: string, clock: nat): Result<Job> {
    match body
    case Raised(e) => Err(e)
    case Returned(JObject(m)) => Ok(NewJob(jobId, m, clock))
    case Returned(v) => Err(NoAttribute(v, "get"))
  }

  function SubmitReply(body: Call<Json>, jobId: string, clock: nat): Reply<SubmitInfo> {
    match SubmitRecord(body, jobId, clock)
    case Ok(j) => Answer(SubmitInfo(j.jobId, j.folderName, StatusName(j.status), j.progress, j.message, j.artifacts))
    case Err(e) => ServerError(SubmitErrorPrefix + e)
  }

  function SubmitJobs(jobs: map<string, Job>, body: Call<Json>, jobId: string, clock: nat): map<string, Job> {
    match SubmitRecord(body, jobId, clock)
    case Ok(j) => jobs[jobId := j]
    case Err(_) => jobs
  }

  /** A submission with an object body stores exactly one record, under the
      new id, and leaves every other record as it was; the reply echoes the
      stored record. Any other body changes nothing and answers 500. */
  lemma SubmitStoresOneRecord(jobs: map<string, Job>, body: Call<Json>, jobId: string, clock: nat)
    ensures var after := SubmitJobs(jobs, body, jobId, clock);
      forall id :: id != jobId ==> (id in after <==> id in jobs) && (id in jobs ==> after[id] == jobs[id])
    ensures body.Returned? && body.value.JObject? ==>
      var after := SubmitJobs(jobs, body, jobId, clock);
      var j := after[jobId];
      jobId in after && j.jobId == jobId && j.status == Pending && j.progress == 0 && j.artifacts == []
      && j.message == InitialMessage && j.appSpec == body.value.fields
      && j.folderName == "App_" + Display(AppName(body.value.fields)) + "_v" + NatToString(clock % 10000)
      && SubmitReply(body, jobId, clock) == Answer(SubmitInfo(jobId, j.folderName, "pending", 0, InitialMessage, []))
      && (jobId !in jobs ==> |after| == |jobs| + 1)
    ensures !(body.Returned? && body.value.JObject?) ==>
      SubmitJobs(jobs, body, jobId, clock) == jobs && SubmitReply(body, jobId, clock).ServerError?
  {
  }

  /** Without an `app_name`, the folder is named after `flutter_app`. */
  lemma DefaultFolderName(appSpec: map<string, Json>, clock: nat)
    requires "app_name" !in appSpec
    ensures NewJob("", appSpec, clock).folderName == "App_flutter_app_v" + NatToString(clock % 10000)
  {
  }

  lemma SubmitKeepsKeyedById(jobs: map<string, Job>, body: Call<Json>, jobId: string, clock: nat)
    requires KeyedById(jobs)
    ensures KeyedById(SubmitJobs(jobs, body, jobId, clock))
  {
  }

  // ---------------------------------------------------------------------
  // The generation task scheduled by a submission
  // ---------------------------------------------------------------------

  /** `[f(x) for x in xs]`, stopping at the first element whose `f` raises. */
  function MapAll<T>(xs: seq<Json>, f: Json -> Result<T>): (r: Result<seq<T>>)
    ensures r.Ok? <==> forall k :: 0 <= k < |xs| ==> f(xs[k]).Ok?
    ensures r.Ok? ==> |r.value| == |xs| && forall k :: 0 <= k < |xs| ==> f(xs[k]) == Ok(r.value[k])
  {
    if xs == [] then Ok([])
    else
      match f(xs[0])
      case Err(e) => Err(e)
      case Ok(y) =>
        match MapAll(xs[1..], f)
        case Err(e) => Err(e)
        case Ok(ys) =>
          assert forall k :: 1 <= k < |xs| ==> xs[k] == xs[1..][k - 1];
          Ok([y] + ys)
  }

  /** The result of a loop that has collected `done` and still has to run `r`. */
  function Then<T>(done: seq<T>, r: Result<seq<T>>): Result<seq<T>> {
    match r
    case Ok(ys) => Ok(done + ys)
    case Err(e) => Err(e)
  }

  lemma MapAllStep<T>(xs: seq<Json>, f: Json -> Result<T>, i: nat)
    requires i < |xs|
    ensures MapAll(xs[i..], f) ==
      match f(xs[i])
      case Err(e) => Err(e)
      case Ok(y) => Then([y], MapAll(xs[i + 1..], f))
  {
    assert xs[i..][0] == xs[i];
    assert xs[i..][1..] == xs[i + 1..];
  }

  lemma ThenNothing<T>(r: Result<seq<T>>)
    ensures Then([], r) == r
  {
    if r.Ok? {
      assert [] + r.value == r.value;
    }
  }

  lemma ThenDone<T>(done: seq<T>)
    ensures Then(done, Ok([])) == Ok(done)
  {
    assert done + [] == done;
  }

  lemma ThenAppend<T>(done: seq<T>, y: T, r: Result<seq<T>>)
    ensures Then(done, Then([y], r)) == Then(done + [y], r)
  {
    if r.Ok? {
      assert done + ([y] + r.value) == done + [y] + r.value;
    }
  }

  /** The field's name, type and nullability, with their defaults. */
  function FieldName(field: map<string, Json>): string { Display(Get(field, "name", JStr("unknown"))) }
  function FieldType(field: map<string, Json>): string { Display(Get(field, "type", JStr("String"))) }
  predicate FieldNullable(field: map<string, Json>) { Truthy(Get(field, "nullable", JBool(true))) }

  /** The Dart member declaration written for one field. */
  function FieldDeclaration(field: map<string, Json>): string {
    if FieldNullable(field) then "  " + FieldType(field) + "? " + FieldName(field) + ";"
    else "  final " + FieldType(field) + " " + FieldName(field) + ";"
  }

  /** The constructor parameter written for one field. */
  function ConstructorParam(field: map<string, Json>): string {
    "    this." + FieldName(field) + ","
  }

  /** The two lines for one entry of a model's `fields`; an entry that is
      not an object fails at `field.get`. */
  function FieldLines(field: Json): Result<(string, string)> {
    if field.JObject? then Ok((FieldDeclaration(field.fields), ConstructorParam(field.fields)))
    else Err(NoAttribute(field, "get"))
  }

  /** A declaration and its constructor parameter name the same field; a
      field is nullable unless its `nullable` entry is falsy, and a nullable
      field's type carries a `?`. */
  lemma FieldLinesAgree(field: map<string, Json>)
    ensures EndsWith(FieldDeclaration(field), " " + FieldName(field) + ";")
    ensures ConstructorParam(field) == "    this." + FieldName(field) + ","
    ensures "nullable" !in field ==>
      FieldDeclaration(field) == "  " + FieldType(field) + "? " + FieldName(field) + ";"
    ensures !FieldNullable(field) ==> StartsWith(FieldDeclaration(field), "  final ")
  {
    var d := FieldDeclaration(field);
    var tail := " " + FieldName(field) + ";";
    if FieldNullable(field) {
      assert d == ("  " + FieldType(field) + "?") + tail;
    } else {
      assert d == ("  final " + FieldType(field)) + tail;
      assert d == "  final " + (FieldType(field) + tail);
    }
  }

  /** What iterating a value of `fields` (or of `models`) ends in when its
      elements are only ever used through `.get`: a dict yields its string
      keys, on which the first `.get` fails. */
  function Through<T>(v: Json, f: Json -> Result<T>): Result<seq<T>> {
    match Iterate(v)
    case Elements(es) => MapAll(es, f)
    case Keys(_) => Err(NoAttribute(JStr(""), "get"))
    case NotIterable => Err(NotIterableError(v))
  }

  /** The path recorded for one entry of `models`, relative to `lib/`. The
      entry's `fields` are walked before the path is recorded, so a bad field
      fails the model. */
  function ModelFile(model: Json): Result<string> {
    if !model.JObject? then Err(NoAttribute(model, "get"))
    else
      var name := Get(model.fields, "name", JStr("Unknown"));
      if !name.JStr? then Err(NoAttribute(name, "lower"))
      else
        match Through(Get(model.fields, "fields", JList([])), FieldLines)
        case Err(e) => Err(e)
        case Ok(_) => Ok("models/" + Lower(name.s) + ".dart")
  }

  /** The path recorded for one entry of `pages`, relative to `lib/`. */
  function PageFile(page: Json): Result<string> {
    if page.JStr? then Ok("pages/" + Lower(page.s) + ".dart") else Err(NoAttribute(page, "lower"))
  }

  /** The model paths for the value of `models`: `len(models)` is taken
      first, then every entry is walked. */
  function ModelFiles(models: Json): Result<seq<string>> {
    if Len(models).None? then Err(NoLen(models)) else Through(models, ModelFile)
  }

  /** The page paths for the value of `pages`. A dict's keys are strings,
      so its loop succeeds, but the later `pages[0]` of a non-empty dict
      raises `KeyError: 0`. */
  function PageFiles(pages: Json): Result<seq<string>> {
    if Len(pages).None? then Err(NoLen(pages))
    else
      match Iterate(pages)
      case Elements(es) => MapAll(es, PageFile)
      case Keys(_) => Err("0")
      case NotIterable => Err(NotIterableError(pages))
  }

  /** The eleven Android files, with the package slug in the `MainActivity.kt` path. */
  function AndroidFiles(slug: string): (r: seq<string>)
    ensures |r| == 11
  {
    [ AndroidPaths.ProjectBuildGradle,
      AndroidPaths.SettingsGradle,
      AndroidPaths.LocalProperties,
      AndroidPaths.AppBuildGradle,
      AndroidPaths.Manifest,
      AndroidPaths.MainActivityPath(slug),
      AndroidPaths.StringsXml,
      AndroidPaths.StylesXml,
      AndroidPaths.LaunchBackground,
      AndroidPaths.LaunchBackgroundV21,
      AndroidPaths.GradleWrapper ]
  }

  function Prefixed(prefix: string, paths: seq<string>): (r: seq<string>)
    ensures |r| == |paths| && forall k :: 0 <= k < |paths| ==> r[k] == prefix + paths[k]
  {
    seq(|paths|, k requires 0 <= k < |paths| => prefix + paths[k])
  }

  const ScaffoldFiles: seq<string> := ["lib/main.dart", "pubspec.yaml", "README.md"]

  function ArtifactList(modelFiles: seq<string>, pageFiles: seq<string>, androidFiles: seq<string>): seq<string> {
    ScaffoldFiles + Prefixed("lib/", modelFiles + pageFiles) + androidFiles
  }

  /** The artifact list of a generation run, or the error that ends it.
      `fsError` is the outcome of the first directory creation, which comes
      before any entry of the spec is looked at. `app_name` is lower-cased
      for the slug only after the models and pages are written. */
  function Generate(appSpec: map<string, Json>, fsError: Option<string>): Result<seq<string>> {
    var appName := AppName(appSpec);
    if fsError.Some? then Err(fsError.value)
    else
      match ModelFiles(Get(appSpec, "models", JList([])))
      case Err(e) => Err(e)
      case Ok(mf) =>
        match PageFiles(Get(appSpec, "pages", JList([])))
        case Err(e) => Err(e)
        case Ok(pf) =>
          if !appName.JStr? then Err(NoAttribute(appName, "lower"))
          else Ok(ArtifactList(mf, pf, AndroidFiles(Slug(appName.s))))
  }

  /** What the task writes into the record: completed with the artifact
      list, or failed with the error text, progress and artifacts kept. */
  function ApplyGeneration(j: Job, r: Result<seq<string>>): Job {
    match r
    case Ok(paths) => j.(status := Completed, progress := 100, message := CompletedMessage, artifacts := paths)
    case Err(e) => j.(status := Failed, message := GenerationErrorPrefix + e)
  }

  function AfterGeneration(jobs: map<string, Job>, jobId: string, r: Result<seq<string>>): map<string, Job> {
    if jobId in jobs then jobs[jobId := ApplyGeneration(jobs[jobId], r)] else jobs
  }

  /** A model entry the generator accepts: an object whose name, if any, is a
      string and whose fields, if any, are a list of objects. */
  predicate WellFormedModel(model: Json) {
    model.JObject?
    && Get(model.fields, "name", JStr("Unknown")).JStr?
    && var fs := Get(model.fields, "fields", JList([]));
       fs.JList? && forall k :: 0 <= k < |fs.items| ==> fs.items[k].JObject?
  }

  function ModelName(model: Json): string
    requires WellFormedModel(model)
  {
    Get(model.fields, "name", JStr("Unknown")).s
  }

  lemma ModelFileWellFormed(model: Json)
    requires WellFormedModel(model)
    ensures ModelFile(model) == Ok("models/" + Lower(ModelName(model)) + ".dart")
  {
    var fs := Get(model.fields, "fields", JList([]));
    assert MapAll(fs.items, FieldLines).Ok?;
  }

  /** `lib/models/<name>.dart` for each well-formed model, in order. */
  function ModelPaths(models: seq<Json>): seq<string>
    requires forall k :: 0 <= k < |models| ==> WellFormedModel(models[k])
  {
    seq(|models|, k requires 0 <= k < |models| && WellFormedModel(models[k]) =>
      "lib/models/" + Lower(ModelName(models[k])) + ".dart")
  }

  /** `lib/pages/<page>.dart` for each string page, in order. */
  function PagePaths(pages: seq<Json>): seq<string>
    requires forall k :: 0 <= k < |pages| ==> pages[k].JStr?
  {
    seq(|pages|, k requires 0 <= k < |pages| && pages[k].JStr? => "lib/pages/" + Lower(pages[k].s) + ".dart")
  }

  lemma PrefixedConcat(prefix: string, a: seq<string>, b: seq<string>)
    ensures Prefixed(prefix, a + b) == Prefixed(prefix, a) + Prefixed(prefix, b)
  {
    var l, r := Prefixed(prefix, a + b), Prefixed(prefix, a) + Prefixed(prefix, b);
    forall k | 0 <= k < |l| ensures l[k] == r[k] {
      if k < |a| {
        assert (a + b)[k] == a[k];
      } else {
        assert (a + b)[k] == b[k - |a|];
      }
    }
  }

  lemma ModelFilesWellFormed(models: seq<Json>)
    requires forall k :: 0 <= k < |models| ==> WellFormedModel(models[k])
    ensures ModelFiles(JList(models)).Ok?
    ensures Prefixed("lib/", ModelFiles(JList(models)).value) == ModelPaths(models)
  {
    forall k | 0 <= k < |models|
      ensures ModelFile(models[k]) == Ok("models/" + Lower(ModelName(models[k])) + ".dart")
    {
      ModelFileWellFormed(models[k]);
    }
    var mf := ModelFiles(JList(models)).value;
    forall k | 0 <= k < |models| ensures Prefixed("lib/", mf)[k] == ModelPaths(models)[k] {
      ModelsPath(Lower(ModelName(models[k])));
    }
  }

  lemma PageFilesOfStrings(pages: seq<Json>)
    requires forall k :: 0 <= k < |pages| ==> pages[k].JStr?
    ensures PageFiles(JList(pages)).Ok?
    ensures Prefixed("lib/", PageFiles(JList(pages)).value) == PagePaths(pages)
  {
    assert forall k :: 0 <= k < |pages| ==> PageFile(pages[k]) == Ok("pages/" + Lower(pages[k].s) + ".dart");
    var pf := PageFiles(JList(pages)).value;
    forall k | 0 <= k < |pages| ensures Prefixed("lib/", pf)[k] == PagePaths(pages)[k] {
      PagesPath(Lower(pages[k].s));
    }
  }

  lemma ModelsPath(x: string)
    ensures "lib/" + ("models/" + x + ".dart") == "lib/models/" + x + ".dart"
  {
  }

  lemma PagesPath(x: string)
    ensures "lib/" + ("pages/" + x + ".dart") == "lib/pages/" + x + ".dart"
  {
  }

  /** The generation of a spec whose app name is a string, whose models are
      well formed and whose pages are strings completes with the three
      scaffold files, one `lib/models/<name>.dart` per model in spec order,
      one `lib/pages/<page>.dart` per page in spec order (names lower-cased),
      and the eleven Android files for the slug of the app name. */
  lemma GenerateWellFormed(appSpec: map<string, Json>, models: seq<Json>, pages: seq<Json>, name: string)
    requires AppName(appSpec) == JStr(name)
    requires Get(appSpec, "models", JList([])) == JList(models)
    requires Get(appSpec, "pages", JList([])) == JList(pages)
    requires forall k :: 0 <= k < |models| ==> WellFormedModel(models[k])
    requires forall k :: 0 <= k < |pages| ==> pages[k].JStr?
    ensures Generate(appSpec, None) ==
      Ok(["lib/main.dart", "pubspec.yaml", "README.md"] + ModelPaths(models) + PagePaths(pages) + AndroidFiles(Slug(name)))
  {
    ModelFilesWellFormed(models);
    PageFilesOfStrings(pages);
    var mf := ModelFiles(JList(models)).value;
    var pf := PageFiles(JList(pages)).value;
    var android := AndroidFiles(Slug(name));
    assert Generate(appSpec, None) == Ok(ArtifactList(mf, pf, android));
    PrefixedConcat("lib/", mf, pf);
    var mp, pp := ModelPaths(models), PagePaths(pages);
    assert ArtifactList(mf, pf, android) == ScaffoldFiles + (mp + pp) + android;
    assert ScaffoldFiles + (mp + pp) + android == ScaffoldFiles + mp + pp + android;
  }

  /** An empty spec completes with the scaffold and Android files of
      `flutter_app`. */
  lemma GenerateEmptySpec()
    ensures Generate(map[], None) == Ok(ScaffoldFiles + AndroidFiles("flutter_app"))
  {
    var e: map<string, Json> := map[];
    assert AppName(e) == JStr("flutter_app");
    assert Get(e, "models", JList([])) == JList([]);
    assert Get(e, "pages", JList([])) == JList([]);
    assert ModelFiles(JList([])) == Ok([]);
    assert PageFiles(JList([])) == Ok([]);
    DefaultNameSlug();
    assert Prefixed("lib/", []) == [];
    assert ArtifactList([], [], AndroidFiles("flutter_app")) == ScaffoldFiles + AndroidFiles("flutter_app");
  }

  /** A filesystem failure, a non-string app name, or a non-object model
      entry fails the whole run. */
  lemma GenerateFailures(appSpec: map<string, Json>, fsError: Option<string>)
    ensures fsError.Some? ==> Generate(appSpec, fsError) == Err(fsError.value)
    ensures var ms := Get(appSpec, "models", JList([]));
      ms.JList? && |ms.items| > 0 && !ms.items[0].JObject? ==>
      Generate(appSpec, fsError).Err?
    ensures Generate(appSpec, fsError).Ok? ==> AppName(appSpec).JStr?
  {
  }

  /** Every successful run lists `lib/main.dart` first and ends with the
      eleven Android files. */
  lemma GenerateShape(appSpec: map<string, Json>, fsError: Option<string>)
    ensures var r := Generate(appSpec, fsError);
      r.Ok? ==>
        |r.value| >= 14 && r.value[0] == "lib/main.dart"
        && r.value[|r.value| - 11..] == AndroidFiles(Slug(AppName(appSpec).s))
  {
  }

  /** The scheduled task leaves a known record completed or failed, never
      running; a failure keeps progress and artifacts; nothing else changes. */
  lemma GenerationOutcome(jobs: map<string, Job>, jobId: string, r: Result<seq<string>>)
    ensures var after := AfterGeneration(jobs, jobId, r);
      after.Keys == jobs.Keys
      && (forall id :: id in jobs && id != jobId ==> after[id] == jobs[id])
      && (jobId in jobs ==>
           var j, j' := jobs[jobId], after[jobId];
           j'.status != Running && j'.status != Pending
           && j'.jobId == j.jobId && j'.folderName == j.folderName && j'.appSpec == j.appSpec
           && (r.Ok? <==> j'.status == Completed)
           && (r.Ok? ==> j'.progress == 100 && j'.artifacts == r.value && j'.message == CompletedMessage)
           && (r.Err? ==> j'.progress == j.progress && j'.artifacts == j.artifacts
                          && j'.message == GenerationErrorPrefix + r.error))
  {
  }

  /** A submitted job, once its task has run, is completed or failed: it
      goes from pending straight to one of them. A failure leaves it at
      progress 0 with no artifacts. */
  lemma SubmitThenGenerate(jobs: map<string, Job>, appSpec: map<string, Json>, jobId: string, clock: nat, fsError: Option<string>)
    ensures var submitted := SubmitJobs(jobs, Returned(JObject(appSpec)), jobId, clock);
      var r := Generate(appSpec, fsError);
      var after := AfterGeneration(submitted, jobId, r);
      submitted[jobId].status == Pending
      && (after[jobId].status == Completed || after[jobId].status == Failed)
      && (after[jobId].status == Failed ==> after[jobId].progress == 0 && after[jobId].artifacts == [])
  {
  }

  // ---------------------------------------------------------------------
  // Server status
  // ---------------------------------------------------------------------

  function IdsWith(jobs: map<string, Job>, s: Status): set<string> {
    set id | id in jobs && jobs[id].status == s
  }

  function CountWith(jobs: map<string, Job>, s: Status): nat {
    |IdsWith(jobs, s)|
  }

  /** The four status counts add up to the number of records. */
  lemma StatusCountsPartition(jobs: map<string, Job>)
    ensures CountWith(jobs, Pending) + CountWith(jobs, Running) + CountWith(jobs, Completed) + CountWith(jobs, Failed) == |jobs|
  {
    var p, r, c, f := IdsWith(jobs, Pending), IdsWith(jobs, Running), IdsWith(jobs, Completed), IdsWith(jobs, Failed);
    assert jobs.Keys == p + r + c + f;
    assert p * r == {} && (p + r) * c == {} && (p + r + c) * f == {};
    PartitionSize(jobs.Keys, p, r, c, f);
  }

  /** Four sets that split a set without overlapping add up to its size. */
  lemma PartitionSize<T>(all: set<T>, p: set<T>, r: set<T>, c: set<T>, f: set<T>)
    requires all == p + r + c + f
    requires p * r == {} && (p + r) * c == {} && (p + r + c) * f == {}
    ensures |all| == |p| + |r| + |c| + |f|
  {
    assert |p + r| == |p| + |r|;
    assert |p + r + c| == |p + r| + |c|;
  }

  // ---------------------------------------------------------------------
  // Download guards
  // ---------------------------------------------------------------------

  /** The media type chosen from the artifact name's suffix. */
  function ContentType(artifactName: string): string {
    if EndsWith(artifactName, ".dart") then "text/x-dart"
    else if EndsWith(artifactName, ".py") then "text/x-python"
    else if EndsWith(artifactName, ".json") then "application/json"
    else if EndsWith(artifactName, ".yaml") || EndsWith(artifactName, ".yml") then "text/yaml"
    else if EndsWith(artifactName, ".md") then "text/markdown"
    else "application/octet-stream"
  }

  lemma EndsWithSuffix(base: string, ext: string)
    ensures EndsWith(base + ext, ext)
  {
    assert (base + ext)[|base + ext| - |ext|..] == ext;
  }

  /** Each known suffix gets its own media type whatever precedes it. */
  lemma ContentTypeBySuffix(base: string)
    ensures ContentType(base + ".dart") == "text/x-dart"
    ensures ContentType(base + ".py") == "text/x-python"
    ensures ContentType(base + ".json") == "application/json"
    ensures ContentType(base + ".yaml") == "text/yaml"
    ensures ContentType(base + ".yml") == "text/yaml"
    ensures ContentType(base + ".md") == "text/markdown"
  {
    EndsWithSuffix(base, ".dart");
    EndsWithSuffix(base, ".py");
    EndsWithSuffix(base, ".json");
    EndsWithSuffix(base, ".yaml");
    EndsWithSuffix(base, ".yml");
    EndsWithSuffix(base, ".md");
    SuffixesDiffer(base + ".py");
    SuffixesDiffer(base + ".json");
    SuffixesDiffer(base + ".yaml");
    SuffixesDiffer(base + ".yml");
    SuffixesDiffer(base + ".md");
  }

  lemma SuffixesDiffer(s: string)
    ensures EndsWith(s, ".py") ==> !EndsWith(s, ".dart")
    ensures EndsWith(s, ".json") ==> !EndsWith(s, ".dart") && !EndsWith(s, ".py")
    ensures EndsWith(s, ".yaml") ==> !EndsWith(s, ".dart") && !EndsWith(s, ".py") && !EndsWith(s, ".json")
    ensures EndsWith(s, ".yml") ==> !EndsWith(s, ".dart") && !EndsWith(s, ".py") && !EndsWith(s, ".json")
    ensures EndsWith(s, ".md") ==>
      !EndsWith(s, ".dart") && !EndsWith(s, ".py") && !EndsWith(s, ".json")
      && !EndsWith(s, ".yaml") && !EndsWith(s, ".yml")
  {
    var n := |s|;
    if EndsWith(s, ".py") { assert s[n - 1] == 'y' && s[n - 2] == 'p'; }
    if EndsWith(s, ".json") { assert s[n - 1] == 'n'; }
    if EndsWith(s, ".yaml") { assert s[n - 1] == 'l' && s[n - 2] == 'm'; }
    if EndsWith(s, ".yml") { assert s[n - 1] == 'l' && s[n - 2] == 'm' && s[n - 3] == 'y'; }
    if EndsWith(s, ".md") { assert s[n - 1] == 'd' && s[n - 2] == 'm' && s[n - 3] == '.'; }
  }

  /** A name falls back to `application/octet-stream` exactly when it has
      none of the known suffixes. */
  lemma ContentTypeFallback(artifactName: string)
    ensures ContentType(artifactName) == "application/octet-stream" <==>
      !EndsWith(artifactName, ".dart") && !EndsWith(artifactName, ".py") && !EndsWith(artifactName, ".json")
      && !EndsWith(artifactName, ".yaml") && !EndsWith(artifactName, ".yml") && !EndsWith(artifactName, ".md")
  {
  }

  /** The version part of a folder name: the text after its last `_`. */
  function ZipVersion(folderName: string): string {
    if '_' in folderName then var parts := Split(folderName, '_'); parts[|parts| - 1] else ""
  }

  /** `App_{app_name}_{version}.zip` */
  function ZipFileName(appSpec: map<string, Json>, folderName: string): string {
    "App_" + Display(AppName(appSpec)) + "_" + ZipVersion(folderName) + ".zip"
  }

  /** For a folder named at submission, the archive is named after the
      folder itself. */
  lemma ZipNameOfSubmittedJob(appSpec: map<string, Json>, clock: nat)
    ensures var folder := FolderName(AppName(appSpec), clock);
      ZipFileName(appSpec, folder) == folder + ".zip"
  {
    var a := "App_" + Display(AppName(appSpec));
    var v := "v" + NatToString(clock % 10000);
    assert '_' !in v by {
      var d := NatToString(clock % 10000);
      assert forall i :: 0 <= i < |d| ==> IsDigit(d[i]);
    }
    var folder := FolderName(AppName(appSpec), clock);
    assert folder == a + ['_'] + v;
    assert ZipVersion(folder) == v by {
      assert folder[|a|] == '_';
      SplitLastPiece(a, '_', v);
    }
    assert ZipFileName(appSpec, folder) == a + "_" + v + ".zip";
  }

  // ---------------------------------------------------------------------
  // Android regeneration
  // ---------------------------------------------------------------------

  /** Appends each new path not yet present, in order; a path already
      present, or added earlier in the same call, is skipped. */
  function MergeNew(existing: seq<string>, adds: seq<string>): seq<string>
    decreases |adds|
  {
    if adds == [] then existing
    else MergeNew(if adds[0] in existing then existing else existing + [adds[0]], adds[1..])
  }

  predicate NoDuplicates(s: seq<string>) {
    forall i, j :: 0 <= i < j < |s| ==> s[i] != s[j]
  }

  /** The merge keeps the existing list as a prefix, contains every added
      path, contains nothing that was in neither list, and adds no duplicate. */
  lemma {:induction false} MergeNewProperties(existing: seq<string>, adds: seq<string>)
    ensures var r := MergeNew(existing, adds);
      |existing| <= |r| <= |existing| + |adds| && r[..|existing|] == existing
      && (forall x :: x in adds ==> x in r)
      && (forall x :: x in r ==> x in existing || x in adds)
      && (NoDuplicates(existing) ==> NoDuplicates(r))
    decreases |adds|
  {
    if adds != [] {
      var next := if adds[0] in existing then existing else existing + [adds[0]];
      MergeNewProperties(next, adds[1..]);
      var r := MergeNew(existing, adds);
      assert r[..|existing|] == r[..|next|][..|existing|];
      forall x | x in adds ensures x in r {
        if x != adds[0] { assert x in adds[1..]; }
        else { assert x in next; assert next[..] == r[..|next|]; }
      }
      if NoDuplicates(existing) {
        assert NoDuplicates(next);
      }
    }
  }

  /** Merging paths that are all present already changes nothing, so a second
      regeneration leaves the artifact list as the first one left it. */
  lemma {:induction false} MergeNewPresent(existing: seq<string>, adds: seq<string>)
    requires forall x :: x in adds ==> x in existing
    ensures MergeNew(existing, adds) == existing
    decreases |adds|
  {
    if adds != [] {
      assert adds[0] in existing;
      MergeNewPresent(existing, adds[1..]);
    }
  }

  lemma MergeNewTwice(existing: seq<string>, adds: seq<string>)
    ensures MergeNew(MergeNew(existing, adds), adds) == MergeNew(existing, adds)
  {
    MergeNewProperties(existing, adds);
    MergeNewPresent(MergeNew(existing, adds), adds);
  }

  /** The record as the Android route leaves it before the build step. */
  function MarkAndroidRunning(j: Job): Job {
    j.(status := Running, progress := 50, message := AndroidRunningMessage)
  }

  /** The slug the build step uses, or the error that ends it. As in
      `Generate`, `fsError` is the outcome of the first directory creation,
      the job directory's (lines 1331-1333), which comes before the app name
      is lower-cased (line 1342). */
  function AndroidBuild(appSpec: map<string, Json>, fsError: Option<string>): Result<string> {
    var appName := AppName(appSpec);
    if fsError.Some? then Err(fsError.value)
    else if !appName.JStr? then Err(NoAttribute(appName, "lower"))
    else Ok(Slug(appName.s))
  }

  function ApplyAndroidBuild(j: Job, r: Result<string>): Job {
    match r
    case Ok(slug) => j.(status := Completed, progress := 100, message := AndroidCompletedMessage,
                        artifacts := MergeNew(j.artifacts, AndroidFiles(slug)))
    case Err(e) => j.(status := Failed, message := AndroidErrorPrefix + e)
  }

  /** Regeneration passes the record through running at 50 and then ends it
      completed at 100 with the eleven Android paths merged in, or failed at
      progress 50 with the artifacts untouched. */
  lemma AndroidRegenerationOutcome(j: Job, fsError: Option<string>)
    ensures MarkAndroidRunning(j).status == Running && MarkAndroidRunning(j).progress == 50
    ensures var j' := ApplyAndroidBuild(MarkAndroidRunning(j), AndroidBuild(j.appSpec, fsError));
      j'.jobId == j.jobId && j'.appSpec == j.appSpec && j'.folderName == j.folderName
      && (j'.status == Completed || j'.status == Failed)
      && (j'.status == Completed ==>
            j'.progress == 100 && |j.artifacts| <= |j'.artifacts| && j'.artifacts[..|j.artifacts|] == j.artifacts
            && forall x :: x in AndroidFiles(Slug(AppName(j.appSpec).s)) ==> x in j'.artifacts)
      && (j'.status == Failed ==> j'.progress == 50 && j'.artifacts == j.artifacts)
  {
    var r := AndroidBuild(j.appSpec, fsError);
    if r.Ok? {
      MergeNewProperties(j.artifacts, AndroidFiles(r.value));
    }
  }

  /** Regenerating a job that generation has completed adds nothing: all
      eleven paths are already listed. */
  lemma AndroidAfterGenerationAddsNothing(j: Job, fsError: Option<string>)
    requires var g := Generate(j.appSpec, None); g.Ok? && j.artifacts == g.value
    requires fsError.None?
    ensures ApplyAndroidBuild(MarkAndroidRunning(j), AndroidBuild(j.appSpec, fsError)).artifacts == j.artifacts
  {
    var slug := Slug(AppName(j.appSpec).s);
    GenerateShape(j.appSpec, None);
    var a := j.artifacts;
    forall x | x in AndroidFiles(slug) ensures x in a {
      var k :| 0 <= k < 11 && AndroidFiles(slug)[k] == x;
      assert a[|a| - 11 + k] == a[|a| - 11..][k];
    }
    MergeNewPresent(a, AndroidFiles(slug));
  }

  // ---------------------------------------------------------------------
  // The job map
  // ---------------------------------------------------------------------

  class JobStore {
    /** `active_jobs` */
    var jobs: map<string, Job>

    ghost predicate Valid()
      reads this
    {
      KeyedById(jobs)
    }

    constructor ()
      ensures Valid() && jobs == map[]
    {
      jobs := map[];
    }

    /** `POST /generate_app` (`start_flutter_app_creation`). */
    method Submit(body: Call<Json>, jobId: string, clock: nat) returns (reply: Reply<SubmitInfo>)
      requires Valid()
      modifies this
      ensures Valid()
      ensures jobs == SubmitJobs(old(jobs), body, jobId, clock)
      ensures reply == SubmitReply(body, jobId, clock)
    {
      match body {
        case Raised(e) =>
          reply := ServerError(SubmitErrorPrefix + e);
        case Returned(v) =>
          if !v.JObject? {
            reply := ServerError(SubmitErrorPrefix + NoAttribute(v, "get"));
          } else {
            var appName := Get(v.fields, "app_name", JStr("flutter_app"));
            var folderName := "App_" + Display(appName) + "_v" + NatToString(clock % 10000);
            var record := Job(jobId, folderName, v.fields, Pending, 0, InitialMessage, []);
            jobs := jobs[jobId := record];
            reply := Answer(SubmitInfo(jobId, folderName, StatusName(jobs[jobId].status), jobs[jobId].progress,
                                   jobs[jobId].message, jobs[jobId].artifacts));
          }
      }
    }

    /** The task `start_app_creation` that a submission schedules; the
        caller runs it as a later step. */
    method StartAppCreation(jobId: string, appSpec: map<string, Json>, fsError: Option<string>)
      requires Valid()
      modifies this
      ensures Valid()
      ensures jobs == AfterGeneration(old(jobs), jobId, Generate(appSpec, fsError))
    {
      if jobId !in jobs {
        return;
      }
      var outcome := RunGeneration(appSpec, fsError);
      match outcome {
        case Ok(paths) =>
          jobs := jobs[jobId := jobs[jobId].(status := Completed, progress := 100,
                                             message := CompletedMessage, artifacts := paths)];
        case Err(e) =>
          jobs := jobs[jobId := jobs[jobId].(status := Failed, message := GenerationErrorPrefix + e)];
      }
    }

    /** `GET /job/{job_id}` */
    function GetJobStatus(jobId: string): (r: Reply<JobView>)
      reads this
      ensures r.NotFound? <==> jobId !in jobs
      ensures r.Answer? <==> jobId in jobs
      ensures r.Answer? ==> r.body == View(jobs[jobId])
      ensures r.Answer? && Valid() ==> r.body.jobId == jobId
    {
      if jobId !in jobs then NotFound(UnknownJobDetail(jobId)) else Answer(View(jobs[jobId]))
    }

    /** `GET /jobs`: one entry per record, under the record's id. */
    function GetAllJobs(): (r: map<string, JobView>)
      reads this
      ensures r.Keys == jobs.Keys
      ensures forall id :: id in r ==> r[id] == View(jobs[id])
      ensures Valid() ==> forall id :: id in r ==> r[id].jobId == id
    {
      map id | id in jobs :: View(jobs[id])
    }

    /** `GET /status` */
    function GetServerStatus(): (r: ServerStatus)
      reads this
      ensures r.activeJobs == CountWith(jobs, Pending) + CountWith(jobs, Running)
      ensures r.completedJobs == CountWith(jobs, Completed) && r.failedJobs == CountWith(jobs, Failed)
      ensures r.activeJobs + r.completedJobs + r.failedJobs == |jobs|
    {
      StatusCountsPartition(jobs);
      ServerStatus("running", "1.0.0", CountWith(jobs, Pending) + CountWith(jobs, Running),
                   CountWith(jobs, Completed), CountWith(jobs, Failed))
    }

    /** `GET /download/{job_id}/{artifact_name}`: unknown ids answer 404 and
        unfinished jobs 400; a completed job has no runner stored, so the
        route answers 500 and never serves a file. */
    function DownloadArtifact(jobId: string, artifactName: string): (r: Reply<string>)
      reads this
      ensures r.NotFound? <==> jobId !in jobs
      ensures r.NotReady? <==> jobId in jobs && jobs[jobId].status != Completed
      ensures !r.Answer?
    {
      if jobId !in jobs then NotFound(UnknownJobDetail(jobId))
      else if jobs[jobId].status != Completed then
        NotReady(NotCompletedDetail + " 현재 상태: " + StatusName(jobs[jobId].status))
      else ServerError(NoRunnerDetail)
    }

    /** `GET /download_zip/{job_id}`: 404 for an unknown id or a missing
        output directory, 400 for an unfinished job; otherwise importing the
        archive directory's setting fails and the route answers 500. */
    function DownloadZip(jobId: string, outputDirExists: bool, importError: string): (r: Reply<string>)
      reads this
      ensures jobId !in jobs ==> r.NotFound?
      ensures r.NotReady? <==> jobId in jobs && jobs[jobId].status != Completed
      ensures jobId in jobs && jobs[jobId].status == Completed ==>
        (r.NotFound? <==> !outputDirExists) && (r.ServerError? <==> outputDirExists)
      ensures !r.Answer?
    {
      if jobId !in jobs then NotFound(UnknownJobDetail(jobId))
      else if jobs[jobId].status != Completed then NotReady(NotCompletedDetail)
      else if !outputDirExists then NotFound(ZipDirMissingDetail)
      else ServerError(ZipErrorPrefix + importError)
    }

    /** `POST /generate_android_files/{job_id}` with the build step
        `generate_android_build_files` it awaits. */
    method RegenerateAndroid(jobId: string, fsError: Option<string>) returns (reply: Reply<JobView>)
      requires Valid()
      modifies this
      ensures Valid()
      ensures jobId !in old(jobs) ==> jobs == old(jobs) && reply == NotFound(UnknownJobDetail(jobId))
      ensures jobId in old(jobs) ==>
        var j := old(jobs)[jobId];
        var j' := ApplyAndroidBuild(MarkAndroidRunning(j), AndroidBuild(j.appSpec, fsError));
        jobs == old(jobs)[jobId := j'] && reply == Answer(View(j'))
    {
      if jobId !in jobs {
        reply := NotFound(UnknownJobDetail(jobId));
        return;
      }
      var running := MarkAndroidRunning(jobs[jobId]);
      jobs := jobs[jobId := running];
      var build := AndroidBuild(running.appSpec, fsError);
      var done: Job;
      match build {
        case Ok(slug) =>
          var merged := MergeArtifacts(running.artifacts, AndroidFiles(slug));
          done := running.(status := Completed, progress := 100,
                           message := AndroidCompletedMessage, artifacts := merged);
        case Err(e) =>
          done := running.(status := Failed, message := AndroidErrorPrefix + e);
      }
      jobs := jobs[jobId := done];
      reply := Answer(View(done));
    }
  }

  /** Lines 1639-1644: the loop that appends each Android path not already
      listed. */
  method MergeArtifacts(existing: seq<string>, adds: seq<string>) returns (r: seq<string>)
    ensures r == MergeNew(existing, adds)
  {
    r := existing;
    var i := 0;
    while i < |adds|
      invariant 0 <= i <= |adds|
      invariant MergeNew(existing, adds) == MergeNew(r, adds[i..])
    {
      assert adds[i..][1..] == adds[i + 1..];
      if adds[i] !in r {
        r := r + [adds[i]];
      }
      i := i + 1;
    }
    assert adds[i..] == [];
  }

  /** Lines 372-385: one declaration and one constructor parameter per field. */
  method CollectFieldLines(fields: seq<Json>) returns (r: Result<seq<(string, string)>>)
    ensures r == MapAll(fields, FieldLines)
  {
    var lines: seq<(string, string)> := [];
    var i := 0;
    assert fields[i..] == fields;
    ThenNothing(MapAll(fields, FieldLines));
    while i < |fields|
      invariant 0 <= i <= |fields|
      invariant MapAll(fields, FieldLines) == Then(lines, MapAll(fields[i..], FieldLines))
    {
      MapAllStep(fields, FieldLines, i);
      var field := fields[i];
      if !field.JObject? {
        return Err(NoAttribute(field, "get"));
      }
      var name := Display(Get(field.fields, "name", JStr("unknown")));
      var ty := Display(Get(field.fields, "type", JStr("String")));
      var nullable := Get(field.fields, "nullable", JBool(true));
      var definition: string;
      if Truthy(nullable) {
        definition := "  " + ty + "? " + name + ";";
      } else {
        definition := "  final " + ty + " " + name + ";";
      }
      ThenAppend(lines, (definition, "    this." + name + ","), MapAll(fields[i + 1..], FieldLines));
      lines := lines + [(definition, "    this." + name + ",")];
      i := i + 1;
    }
    assert fields[i..] == [];
    ThenDone(lines);
    r := Ok(lines);
  }

  /** Lines 361-420: the model loop, which records one path per model. */
  method CollectModelFiles(models: seq<Json>) returns (r: Result<seq<string>>)
    ensures r == MapAll(models, ModelFile)
  {
    var modelFiles: seq<string> := [];
    var i := 0;
    assert models[i..] == models;
    ThenNothing(MapAll(models, ModelFile));
    while i < |models|
      invariant 0 <= i <= |models|
      invariant MapAll(models, ModelFile) == Then(modelFiles, MapAll(models[i..], ModelFile))
    {
      MapAllStep(models, ModelFile, i);
      var model := models[i];
      if !model.JObject? {
        return Err(NoAttribute(model, "get"));
      }
      var modelName := Get(model.fields, "name", JStr("Unknown"));
      if !modelName.JStr? {
        return Err(NoAttribute(modelName, "lower"));
      }
      var fields := Get(model.fields, "fields", JList([]));
      match Iterate(fields) {
        case NotIterable =>
          return Err(NotIterableError(fields));
        case Keys(_) =>
          return Err(NoAttribute(JStr(""), "get"));
        case Elements(es) =>
          var lines := CollectFieldLines(es);
          if lines.Err? {
            return Err(lines.error);
          }
      }
      var path := "models/" + Lower(modelName.s) + ".dart";
      ThenAppend(modelFiles, path, MapAll(models[i + 1..], ModelFile));
      modelFiles := modelFiles + [path];
      i := i + 1;
    }
    assert models[i..] == [];
    ThenDone(modelFiles);
    r := Ok(modelFiles);
  }

  /** Lines 426-465: the page loop, which records one path per page. */
  method CollectPageFiles(pages: seq<Json>) returns (r: Result<seq<string>>)
    ensures r == MapAll(pages, PageFile)
  {
    var pageFiles: seq<string> := [];
    var i := 0;
    assert pages[i..] == pages;
    ThenNothing(MapAll(pages, PageFile));
    while i < |pages|
      invariant 0 <= i <= |pages|
      invariant MapAll(pages, PageFile) == Then(pageFiles, MapAll(pages[i..], PageFile))
    {
      MapAllStep(pages, PageFile, i);
      var pageName := pages[i];
      if !pageName.JStr? {
        return Err(NoAttribute(pageName, "lower"));
      }
      var path := "pages/" + Lower(pageName.s) + ".dart";
      ThenAppend(pageFiles, path, MapAll(pages[i + 1..], PageFile));
      pageFiles := pageFiles + [path];
      i := i + 1;
    }
    assert pages[i..] == [];
    ThenDone(pageFiles);
    r := Ok(pageFiles);
  }

  /** The body of `start_app_creation` up to the status update: the
      directory creation, the model and page loops, and the artifact list. */
  method RunGeneration(appSpec: map<string, Json>, fsError: Option<string>) returns (r: Result<seq<string>>)
    ensures r == Generate(appSpec, fsError)
  {
    var appName := Get(appSpec, "app_name", JStr("flutter_app"));
    if fsError.Some? {
      return Err(fsError.value);
    }
    var models := Get(appSpec, "models", JList([]));
    if Len(models).None? {
      return Err(NoLen(models));
    }
    var modelFiles: seq<string>;
    match Iterate(models) {
      case NotIterable =>
        return Err(NotIterableError(models));
      case Keys(_) =>
        return Err(NoAttribute(JStr(""), "get"));
      case Elements(es) =>
        var collected := CollectModelFiles(es);
        if collected.Err? {
          return Err(collected.error);
        }
        modelFiles := collected.value;
    }
    var pages := Get(appSpec, "pages", JList([]));
    if Len(pages).None? {
      return Err(NoLen(pages));
    }
    var pageFiles: seq<string>;
    match Iterate(pages) {
      case NotIterable =>
        return Err(NotIterableError(pages));
      case Keys(_) =>
        return Err("0");
      case Elements(es) =>
        var collected := CollectPageFiles(es);
        if collected.Err? {
          return Err(collected.error);
        }
        pageFiles := collected.value;
    }
    if !appName.JStr? {
      return Err(NoAttribute(appName, "lower"));
    }
    var slug := ReplaceAll(ReplaceAll(Lower(appName.s), "-", "_"), " ", "_");
    r := Ok(ScaffoldFiles + Prefixed("lib/", modelFiles + pageFiles) + AndroidFiles(slug));
  }
}
