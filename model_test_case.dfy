/** The model-test agent's helpers: `create_model_test_case` derives the test
    file name and the template context from one generated-model record and
    asks the Dart file tool for it; `generate_model_tests` does so for every
    record in the session's `generated_models`, in order. The tool call
    itself is outside the model: it is a parameter, giving for each request
    the exception it raises, if any. Nothing catches such an exception, so
    it ends the loop and propagates. */
module ModelTestCase {
  import opened Outcomes
  import opened Text
  import opened Json
  import opened Tools
  import CodeGeneration

  const TestTemplate := "model_test.dart.j2"

  /** `f"test/{file.replace('lib/', '').replace('.dart', '')}_test.dart"` */
  function TestPath(file: string): string {
    "test/" + ReplaceAll(ReplaceAll(file, "lib/", ""), ".dart", "") + "_test.dart"
  }

  /** Removing every `lib` and then every `ext` from `lib + p + ext` gives
      back `p` when `p` holds neither and the two cannot overlap the seams. */
  lemma {:induction false} StripAffixes(p: string, lib: string, ext: string)
    requires |lib| > 0 && |ext| > 0 && lib[0] !in ext
    requires ext[0] !in lib[1..] && ext[0] !in ext[1..]
    requires !Contains(p, lib) && !Contains(p, ext)
    ensures ReplaceAll(ReplaceAll(lib + p + ext, lib, ""), ext, "") == p
  {
    assert lib + p + ext == lib + (p + ext);
    ReplaceAllFront(lib, p + ext, "");
    ReplaceAllBeforeSeam(p, ext, lib, "");
    ReplaceAllAbsent(ext, lib, "");
    assert "" + (p + ext) == p + ext;
    ReplaceAllBeforeSeam(p, ext, ext, "");
    ReplaceAllFront(ext, [], "");
    assert ext + [] == ext && p + "" == p;
  }

  /** A model file `lib/<p>.dart` is tested in `test/<p>_test.dart` when `p`
      itself holds no `lib/` and no `.dart`. */
  lemma TestPathOfLibFile(p: string)
    requires !Contains(p, "lib/") && !Contains(p, ".dart")
    ensures TestPath("lib/" + p + ".dart") == "test/" + p + "_test.dart"
  {
    StripAffixes(p, "lib/", ".dart");
  }

  /** A call of the Dart file tool: template, output name and context. */
  datatype Request = Request(templateName: string, outputFilename: string, context: map<string, Json>)

  /** The request for one model record, or the exception building it raises.
      The entries are evaluated in source order: `name`, `name`, `file`,
      `fields`, `file`, and then the `replace` on the file. */
  function TestCase(model: Json): (r: Result<Request>)
    ensures r.Ok? <==>
      model.JObject? && "name" in model.fields && "file" in model.fields && "fields" in model.fields
      && model.fields["file"].JStr?
    ensures r.Ok? ==>
      var m := model.fields;
      && r.value.templateName == TestTemplate
      && r.value.outputFilename == TestPath(m["file"].s)
      && r.value.context.Keys == {"test_name", "model_name", "model_file", "fields", "dependencies"}
      && r.value.context["test_name"] == JStr(Display(m["name"]) + "Test")
      && r.value.context["model_name"] == m["name"]
      && r.value.context["model_file"] == m["file"]
      && r.value.context["fields"] == m["fields"]
      && r.value.context["dependencies"] == JList([JStr("flutter_test"), m["file"]])
    ensures !model.JObject? ==> r == Err(Subscript(model, "name").error)
  {
    match Subscript(model, "name")
    case Err(e) => Err(e)
    case Ok(name) =>
      match Subscript(model, "file")
      case Err(e) => Err(e)
      case Ok(file) =>
        match Subscript(model, "fields")
        case Err(e) => Err(e)
        case Ok(fields) =>
          var context := map[
            "test_name" := JStr(Display(name) + "Test"),
            "model_name" := name,
            "model_file" := file,
            "fields" := fields,
            "dependencies" := JList([JStr("flutter_test"), file])];
          if !file.JStr? then Err(NoAttribute(file, "replace"))
          else Ok(Request(TestTemplate, TestPath(file.s), context))
  }

  /** The test context has no `class_name`, so the Dart file tool records
      nothing in the session state for a test file. */
  lemma TestRequestLeavesStateAlone(model: Json, state: map<string, Json>)
    requires TestCase(model).Ok?
    ensures CodeGeneration.DartFileState(state, TestCase(model).value.context, TestCase(model).value.outputFilename)
            == CodeGeneration.StateStep(state, None)
  {
    CodeGeneration.DartFileBookkeeping(state, TestCase(model).value.context, TestCase(model).value.outputFilename);
  }

  /** The requests issued, in order, and the exception that ended the loop. */
  datatype TestsRun = TestsRun(issued: seq<Request>, error: Option<string>)

  /** The loop over the records, stopping at the first exception: a record
      whose request cannot be built, or a tool call that raises (its request
      was issued). `build` gives each record's request. */
  function IssueEach(models: seq<Json>, build: Json -> Result<Request>, toolCall: Request -> Option<string>): TestsRun
    decreases |models|
  {
    if models == [] then TestsRun([], None)
    else
      var r := IssueEach(models[..|models| - 1], build, toolCall);
      if r.error.Some? then r
      else
        match build(models[|models| - 1])
        case Err(e) => TestsRun(r.issued, Some(e))
        case Ok(req) => TestsRun(r.issued + [req], toolCall(req))
  }

  /** The loop of `generate_model_tests`, each request built by
      `create_model_test_case`. */
  function IssueAll(models: seq<Json>, toolCall: Request -> Option<string>): TestsRun {
    IssueEach(models, TestCase, toolCall)
  }

  /** `generate_model_tests`: nothing when `generated_models` is missing or
      falsy; otherwise the loop over what iterating it yields. A non-empty
      dict yields its keys and a string its characters, and subscripting a
      string with `'name'` raises at once. */
  function ModelTests(state: map<string, Json>, toolCall: Request -> Option<string>): (r: TestsRun)
    ensures !Truthy(Get(state, "generated_models", JList([]))) ==> r == TestsRun([], None)
  {
    var models := Get(state, "generated_models", JList([]));
    if !Truthy(models) then TestsRun([], None)
    else
      match Iterate(models)
      case Elements(elems) => IssueAll(elems, toolCall)
      case Keys(_) => TestsRun([], Some(StringIndexError))
      case NotIterable => TestsRun([], Some(NotIterableError(models)))
  }

  const StringIndexError := "string indices must be integers, not 'str'"

  lemma {:induction false} IssueEachComplete(models: seq<Json>, build: Json -> Result<Request>, toolCall: Request -> Option<string>)
    requires forall k :: 0 <= k < |models| ==> build(models[k]).Ok? && toolCall(build(models[k]).value).None?
    ensures IssueEach(models, build, toolCall).error.None?
    ensures |IssueEach(models, build, toolCall).issued| == |models|
    ensures forall k :: 0 <= k < |models| ==> IssueEach(models, build, toolCall).issued[k] == build(models[k]).value
    decreases |models|
  {
    if models != [] {
      var init := models[..|models| - 1];
      forall k | 0 <= k < |init| ensures init[k] == models[k] { }
      IssueEachComplete(init, build, toolCall);
    }
  }

  /** When every record is well formed and no call raises, one request per
      record is issued, in list order. */
  lemma IssueAllComplete(models: seq<Json>, toolCall: Request -> Option<string>)
    requires forall k :: 0 <= k < |models| ==> TestCase(models[k]).Ok? && toolCall(TestCase(models[k]).value).None?
    ensures IssueAll(models, toolCall).error.None?
    ensures |IssueAll(models, toolCall).issued| == |models|
    ensures forall k :: 0 <= k < |models| ==> IssueAll(models, toolCall).issued[k] == TestCase(models[k]).value
  {
    IssueEachComplete(models, TestCase, toolCall);
  }

  lemma {:induction false} IssueEachPrefix(models: seq<Json>, build: Json -> Result<Request>, toolCall: Request -> Option<string>)
    ensures |IssueEach(models, build, toolCall).issued| <= |models|
    ensures IssueEach(models, build, toolCall).error.None? ==> |IssueEach(models, build, toolCall).issued| == |models|
    ensures forall k :: 0 <= k < |IssueEach(models, build, toolCall).issued| ==>
      build(models[k]).Ok? && IssueEach(models, build, toolCall).issued[k] == build(models[k]).value
    decreases |models|
  {
    if models != [] {
      var init := models[..|models| - 1];
      IssueEachPrefix(init, build, toolCall);
      forall k | 0 <= k < |init| ensures init[k] == models[k] { }
    }
  }

  /** At most one request per record is issued, and the issued requests are
      those of the leading records, in order. */
  lemma IssueAllPrefix(models: seq<Json>, toolCall: Request -> Option<string>)
    ensures |IssueAll(models, toolCall).issued| <= |models|
    ensures IssueAll(models, toolCall).error.None? ==> |IssueAll(models, toolCall).issued| == |models|
    ensures forall k :: 0 <= k < |IssueAll(models, toolCall).issued| ==>
      TestCase(models[k]).Ok? && IssueAll(models, toolCall).issued[k] == TestCase(models[k]).value
  {
    IssueEachPrefix(models, TestCase, toolCall);
  }

  /** The loop of `generate_model_tests`; the session is only read. */
  method GenerateModelTests(ctx: ToolContext, toolCall: Request -> Option<string>) returns (run: TestsRun)
    ensures run == ModelTests(ctx.state, toolCall)
  {
    var generatedModels := Get(ctx.state, "generated_models", JList([]));
    if !Truthy(generatedModels) {
      return TestsRun([], None);
    }
    var it := Iterate(generatedModels);
    if it.NotIterable? {
      return TestsRun([], Some(NotIterableError(generatedModels)));
    }
    if it.Keys? {
      return TestsRun([], Some(StringIndexError));
    }
    var models := it.elems;
    var issued: seq<Request> := [];
    var i := 0;
    while i < |models|
      invariant 0 <= i <= |models|
      invariant IssueAll(models[..i], toolCall) == TestsRun(issued, None)
    {
      assert models[..i + 1][..i] == models[..i];
      var request := TestCase(models[i]);
      if request.Err? {
        assert IssueAll(models[..i + 1], toolCall) == TestsRun(issued, Some(request.error));
        run := TestsRun(issued, Some(request.error));
        IssueAllStops(models, i + 1, toolCall);
        return;
      }
      issued := issued + [request.value];
      var raised := toolCall(request.value);
      if raised.Some? {
        run := TestsRun(issued, raised);
        IssueAllStops(models, i + 1, toolCall);
        return;
      }
      i := i + 1;
    }
    assert models[..|models|] == models;
    run := TestsRun(issued, None);
  }

  lemma {:induction false} IssueEachStops(models: seq<Json>, n: nat, build: Json -> Result<Request>, toolCall: Request -> Option<string>)
    requires n <= |models| && IssueEach(models[..n], build, toolCall).error.Some?
    ensures IssueEach(models, build, toolCall) == IssueEach(models[..n], build, toolCall)
    decreases |models| - n
  {
    if n < |models| {
      var init := models[..|models| - 1];
      assert init[..n] == models[..n];
      IssueEachStops(init, n, build, toolCall);
    } else {
      assert models[..n] == models;
    }
  }

  /** Once a prefix of the records ends in an exception, the records after
      it change nothing. */
  lemma IssueAllStops(models: seq<Json>, n: nat, toolCall: Request -> Option<string>)
    requires n <= |models| && IssueAll(models[..n], toolCall).error.Some?
    ensures IssueAll(models, toolCall) == IssueAll(models[..n], toolCall)
  {
    IssueEachStops(models, n, TestCase, toolCall);
  }
}
