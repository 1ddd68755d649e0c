/** The three code-generation tools and the bookkeeping they leave in the
    session state: `generate_dart_file`, `generate_python_file` and
    `direct_code_generation`. Template rendering and the artifact service
    are outside the model: the rendered text (or the error rendering
    raised) and the outcome of the save are parameters. */
module CodeGeneration {
  import opened Outcomes
  import opened Text
  import opened Json
  import opened Tools

  /** The dictionary a tool returns. */
  datatype ToolReply =
    | Generated(filename: string, version: int, message: string)
    | ToolFailed(error: string, message: string)

  /** What a tool leaves behind: the new session state, whether its artifact
      was saved, and its reply. */
  datatype ToolRun = ToolRun(state: map<string, Json>, saved: bool, reply: ToolReply)

  /** A state update that may stop at an error: the state as the error left
      it, and the error. */
  datatype StateStep = StateStep(state: map<string, Json>, error: Option<string>)

  // ---------------------------------------------------------------------
  // generate_dart_file
  // ---------------------------------------------------------------------

  /** The record kept for a generated class. */
  function ClassMeta(context: map<string, Json>, outputFilename: string): Json
    requires "class_name" in context
  {
    JObject(map[
      "name" := context["class_name"],
      "file" := JStr(outputFilename),
      "fields" := Get(context, "fields", JList([])),
      "type" := Get(context, "type", JStr("model"))])
  }

  /** The state key under which a class record is indexed by name. */
  function ModelKey(className: Json): string {
    "model_" + Display(className)
  }

  /** The bookkeeping after a successful save: with a `class_name`, the
      class record is appended to `generated_models` (a fresh list when the
      key is missing; any other value has no `append`) and stored under
      `model_<class_name>`. */
  function DartFileState(state: map<string, Json>, context: map<string, Json>, outputFilename: string): StateStep {
    if "class_name" !in context then StateStep(state, None)
    else
      var meta := ClassMeta(context, outputFilename);
      var models := Get(state, "generated_models", JList([]));
      if !models.JList? then StateStep(state, Some(NoAttribute(models, "append")))
      else StateStep(state["generated_models" := JList(models.items + [meta])][ModelKey(context["class_name"]) := meta], None)
  }

  function DartDone(f: string): string { "Dart 파일 '" + f + "'이 성공적으로 생성되었습니다." }
  function DartFailed(f: string, e: string): string { "Dart 파일 '" + f + "' 생성 실패: " + e }

  function DartFileRun(state: map<string, Json>, context: map<string, Json>, outputFilename: string,
                       rendered: Call<string>, saveOutcome: Call<int>): ToolRun
  {
    if rendered.Raised? then ToolRun(state, false, ToolFailed(rendered.error, DartFailed(outputFilename, rendered.error)))
    else if saveOutcome.Raised? then ToolRun(state, false, ToolFailed(saveOutcome.error, DartFailed(outputFilename, saveOutcome.error)))
    else
      var step := DartFileState(state, context, outputFilename);
      if step.error.Some? then ToolRun(step.state, true, ToolFailed(step.error.value, DartFailed(outputFilename, step.error.value)))
      else ToolRun(step.state, true, Generated(outputFilename, saveOutcome.value, DartDone(outputFilename)))
  }

  /** With a `class_name` and a list (or nothing) under `generated_models`,
      exactly one record is appended to that list and the same record is
      stored under `model_<class_name>`; no other key changes. The record
      names the class, the output file, the fields (default `[]`) and the
      type (default `"model"`). Without a `class_name` the state is
      untouched. */
  lemma DartFileBookkeeping(state: map<string, Json>, context: map<string, Json>, outputFilename: string)
    ensures "class_name" !in context ==> DartFileState(state, context, outputFilename) == StateStep(state, None)
    ensures "class_name" in context && Get(state, "generated_models", JList([])).JList? ==>
      var step := DartFileState(state, context, outputFilename);
      var before := Get(state, "generated_models", JList([])).items;
      var key := ModelKey(context["class_name"]);
      var meta := step.state[key];
      step.error.None?
      && step.state.Keys == state.Keys + {"generated_models", key}
      && step.state["generated_models"] == JList(before + [meta])
      && (forall k :: k in state && k != "generated_models" && k != key ==> step.state[k] == state[k])
      && meta.JObject? && meta.fields.Keys == {"name", "file", "fields", "type"}
      && meta.fields["name"] == context["class_name"] && meta.fields["file"] == JStr(outputFilename)
      && meta.fields["fields"] == Get(context, "fields", JList([]))
      && meta.fields["type"] == Get(context, "type", JStr("model"))
    ensures "class_name" in context && !Get(state, "generated_models", JList([])).JList? ==>
      DartFileState(state, context, outputFilename) == StateStep(state, Some(NoAttribute(state["generated_models"], "append")))
  {
    if "class_name" in context {
      var key := ModelKey(context["class_name"]);
      assert key != "generated_models" by {
        assert key[0] == 'm' && "generated_models"[0] == 'g';
      }
    }
  }

  /** The state changes only after the save has returned, and a reply
      reports success exactly when rendering, saving and the bookkeeping
      all succeeded; a successful reply carries the output name and the
      version the save reported. */
  lemma DartFileOutcome(state: map<string, Json>, context: map<string, Json>, outputFilename: string,
                        rendered: Call<string>, saveOutcome: Call<int>)
    ensures var run := DartFileRun(state, context, outputFilename, rendered, saveOutcome);
      (rendered.Raised? || saveOutcome.Raised? ==> run.state == state && !run.saved && run.reply.ToolFailed?)
      && (run.saved <==> rendered.Returned? && saveOutcome.Returned?)
      && (run.reply.Generated? <==>
            rendered.Returned? && saveOutcome.Returned? && DartFileState(state, context, outputFilename).error.None?)
      && (run.reply.Generated? ==>
            run.reply.filename == outputFilename && run.reply.version == saveOutcome.value
            && run.reply.message == DartDone(outputFilename))
      && (run.reply.ToolFailed? ==>
            run.state == state && run.reply.message == DartFailed(outputFilename, run.reply.error))
  {
  }

  method GenerateDartFile(ctx: ToolContext, templateName: string, outputFilename: string, context: map<string, Json>,
                          rendered: Call<string>, saveOutcome: Call<int>) returns (reply: ToolReply)
    modifies ctx
    ensures var run := DartFileRun(old(ctx.state), context, outputFilename, rendered, saveOutcome);
      ctx.state == run.state && reply == run.reply
      && ctx.artifacts == old(ctx.artifacts) + (if run.saved then [Artifact(outputFilename, "text/x-dart")] else [])
  {
    if rendered.Raised? {
      return ToolFailed(rendered.error, DartFailed(outputFilename, rendered.error));
    }
    var version := ctx.SaveArtifact(outputFilename, "text/x-dart", saveOutcome);
    if version.Raised? {
      return ToolFailed(version.error, DartFailed(outputFilename, version.error));
    }
    if "class_name" in context {
      var classMeta := ClassMeta(context, outputFilename);
      var modelsList := Get(ctx.state, "generated_models", JList([]));
      if !modelsList.JList? {
        var e := NoAttribute(modelsList, "append");
        return ToolFailed(e, DartFailed(outputFilename, e));
      }
      ctx.state := ctx.state["generated_models" := JList(modelsList.items + [classMeta])];
      ctx.state := ctx.state["model_" + Display(context["class_name"]) := classMeta];
    }
    reply := Generated(outputFilename, version.value, DartDone(outputFilename));
  }

  // ---------------------------------------------------------------------
  // generate_python_file
  // ---------------------------------------------------------------------

  /** The record appended for one entry of `endpoints`; the entry is
      subscripted for `path`, then for `method`. */
  function EndpointRecord(endpoint: Json, outputFilename: string): Result<Json> {
    match Subscript(endpoint, "path")
    case Err(e) => Err(e)
    case Ok(path) =>
      match Subscript(endpoint, "method")
      case Err(e) => Err(e)
      case Ok(m) => Ok(JObject(map["path" := path, "method" := m, "file" := JStr(outputFilename)]))
  }

  datatype Appended = Appended(items: seq<Json>, error: Option<string>)

  /** The endpoint loop: one record per entry, appended in order, stopping
      at the first entry that cannot be subscripted; the records appended
      before the failure stay appended. */
  function AppendEndpoints(acc: seq<Json>, endpoints: seq<Json>, outputFilename: string): (r: Appended)
    decreases |endpoints|
  {
    if endpoints == [] then Appended(acc, None)
    else
      match EndpointRecord(endpoints[0], outputFilename)
      case Err(e) => Appended(acc, Some(e))
      case Ok(rec) => AppendEndpoints(acc + [rec], endpoints[1..], outputFilename)
  }

  /** When every entry yields a record, all records are appended after the
      previous items, one per entry and in order, and no error is raised. */
  lemma {:induction false} AppendEndpointsAll(acc: seq<Json>, endpoints: seq<Json>, outputFilename: string)
    requires forall k :: 0 <= k < |endpoints| ==> EndpointRecord(endpoints[k], outputFilename).Ok?
    ensures var r := AppendEndpoints(acc, endpoints, outputFilename);
      r.error.None? && |r.items| == |acc| + |endpoints| && r.items[..|acc|] == acc
      && forall k :: 0 <= k < |endpoints| ==> EndpointRecord(endpoints[k], outputFilename) == Ok(r.items[|acc| + k])
    decreases |endpoints|
  {
    if endpoints != [] {
      var rec := EndpointRecord(endpoints[0], outputFilename).value;
      var rest := endpoints[1..];
      assert forall k :: 0 <= k < |rest| ==> rest[k] == endpoints[k + 1];
      AppendEndpointsAll(acc + [rec], rest, outputFilename);
      var r := AppendEndpoints(acc, endpoints, outputFilename);
      assert r == AppendEndpoints(acc + [rec], rest, outputFilename);
      assert r.items[..|acc|] == (acc + [rec])[..|acc|];
      forall k | 0 <= k < |endpoints|
        ensures EndpointRecord(endpoints[k], outputFilename) == Ok(r.items[|acc| + k])
      {
        if k == 0 {
          assert r.items[..|acc| + 1][|acc|] == (acc + [rec])[|acc|];
        } else {
          assert endpoints[k] == rest[k - 1];
        }
      }
    }
  }

  /** When entry `n` is the first without a record, exactly the records of
      the entries before it are appended and the loop stops with that
      entry's error. */
  lemma {:induction false} AppendEndpointsStops(acc: seq<Json>, endpoints: seq<Json>, outputFilename: string, n: nat)
    requires n < |endpoints| && EndpointRecord(endpoints[n], outputFilename).Err?
    requires forall k :: 0 <= k < n ==> EndpointRecord(endpoints[k], outputFilename).Ok?
    ensures var r := AppendEndpoints(acc, endpoints, outputFilename);
      r.error == Some(EndpointRecord(endpoints[n], outputFilename).error)
      && |r.items| == |acc| + n && r.items[..|acc|] == acc
      && forall k :: 0 <= k < n ==> EndpointRecord(endpoints[k], outputFilename) == Ok(r.items[|acc| + k])
    decreases n
  {
    if n > 0 {
      var rec := EndpointRecord(endpoints[0], outputFilename).value;
      var rest := endpoints[1..];
      assert forall k :: 0 <= k < |rest| ==> rest[k] == endpoints[k + 1];
      AppendEndpointsStops(acc + [rec], rest, outputFilename, n - 1);
      var r := AppendEndpoints(acc, endpoints, outputFilename);
      assert r == AppendEndpoints(acc + [rec], rest, outputFilename);
      assert r.items[..|acc|] == (acc + [rec])[..|acc|];
      forall k | 0 <= k < n
        ensures EndpointRecord(endpoints[k], outputFilename) == Ok(r.items[|acc| + k])
      {
        if k == 0 {
          assert r.items[..|acc| + 1][|acc|] == (acc + [rec])[|acc|];
        } else {
          assert endpoints[k] == rest[k - 1];
        }
      }
    }
  }

  const StringIndexError := "string indices must be integers, not 'str'"

  /** The bookkeeping after a successful save when the context has
      `endpoints`. The list under `api_endpoints` is extended in place, so
      when it was already in the state, records appended before a failing
      entry remain there; a fresh list is stored only when the loop ends. */
  function PythonFileState(state: map<string, Json>, context: map<string, Json>, outputFilename: string): StateStep {
    if "endpoints" !in context then StateStep(state, None)
    else
      var endpoints := context["endpoints"];
      var existing := Get(state, "api_endpoints", JList([]));
      match Iterate(endpoints)
      case NotIterable => StateStep(state, Some(NotIterableError(endpoints)))
      case Keys(_) =>
        // a dict yields string keys; `append` is looked up before the key is subscripted
        StateStep(state, Some(if existing.JList? then StringIndexError else NoAttribute(existing, "append")))
      case Elements(es) =>
        if !existing.JList? then
          StateStep(state, if es == [] then None else Some(NoAttribute(existing, "append")))
        else
          var r := AppendEndpoints(existing.items, es, outputFilename);
          if r.error.None? || "api_endpoints" in state then StateStep(state["api_endpoints" := JList(r.items)], r.error)
          else StateStep(state, r.error)
  }

  function PythonDone(f: string): string { "Python 파일 '" + f + "'이 성공적으로 생성되었습니다." }
  function PythonFailed(f: string, e: string): string { "Python 파일 '" + f + "' 생성 실패: " + e }

  function PythonFileRun(state: map<string, Json>, context: map<string, Json>, outputFilename: string,
                         rendered: Call<string>, saveOutcome: Call<int>): ToolRun
  {
    if rendered.Raised? then ToolRun(state, false, ToolFailed(rendered.error, PythonFailed(outputFilename, rendered.error)))
    else if saveOutcome.Raised? then ToolRun(state, false, ToolFailed(saveOutcome.error, PythonFailed(outputFilename, saveOutcome.error)))
    else
      var step := PythonFileState(state, context, outputFilename);
      if step.error.Some? then ToolRun(step.state, true, ToolFailed(step.error.value, PythonFailed(outputFilename, step.error.value)))
      else ToolRun(step.state, true, Generated(outputFilename, saveOutcome.value, PythonDone(outputFilename)))
  }

  /** An entry that has both keys. */
  predicate IsEndpoint(e: Json) {
    e.JObject? && "path" in e.fields && "method" in e.fields
  }

  /** With a list of endpoint entries, `api_endpoints` becomes the previous
      list (or `[]`) followed by one `{path, method, file}` record per entry,
      in context order; no other key changes. */
  lemma PythonEndpointsAppended(state: map<string, Json>, context: map<string, Json>, outputFilename: string, es: seq<Json>)
    requires "endpoints" in context && context["endpoints"] == JList(es)
    requires forall k :: 0 <= k < |es| ==> IsEndpoint(es[k])
    requires Get(state, "api_endpoints", JList([])).JList?
    ensures var step := PythonFileState(state, context, outputFilename);
      var before := Get(state, "api_endpoints", JList([])).items;
      step.error.None? && step.state.Keys == state.Keys + {"api_endpoints"}
      && (forall k :: k in state && k != "api_endpoints" ==> step.state[k] == state[k])
      && step.state["api_endpoints"].JList?
      && |step.state["api_endpoints"].items| == |before| + |es|
      && step.state["api_endpoints"].items[..|before|] == before
      && forall k :: 0 <= k < |es| ==>
           IsEndpoint(es[k]) && step.state["api_endpoints"].items[|before| + k]
             == JObject(map["path" := es[k].fields["path"], "method" := es[k].fields["method"], "file" := JStr(outputFilename)])
  {
    var before := Get(state, "api_endpoints", JList([])).items;
    AppendEndpointsAll(before, es, outputFilename);
  }

  /** When `api_endpoints` already holds a list and entry `n` is the first
      that cannot be subscripted, the records of the entries before it stay
      appended to the stored list; when the key was missing, the state is
      left as it was. */
  lemma PythonPartialAppend(state: map<string, Json>, context: map<string, Json>, outputFilename: string, es: seq<Json>, n: nat)
    requires "endpoints" in context && context["endpoints"] == JList(es)
    requires n < |es| && !IsEndpoint(es[n]) && forall k :: 0 <= k < n ==> IsEndpoint(es[k])
    requires Get(state, "api_endpoints", JList([])).JList?
    ensures var step := PythonFileState(state, context, outputFilename);
      step.error.Some?
      && ("api_endpoints" !in state ==> step.state == state)
      && ("api_endpoints" in state ==>
            step.state.Keys == state.Keys
            && step.state["api_endpoints"].JList?
            && |step.state["api_endpoints"].items| == |state["api_endpoints"].items| + n)
  {
    var before := Get(state, "api_endpoints", JList([])).items;
    AppendEndpointsStops(before, es, outputFilename, n);
  }

  method GeneratePythonFile(ctx: ToolContext, templateName: string, outputFilename: string, context: map<string, Json>,
                            rendered: Call<string>, saveOutcome: Call<int>) returns (reply: ToolReply)
    modifies ctx
    ensures var run := PythonFileRun(old(ctx.state), context, outputFilename, rendered, saveOutcome);
      ctx.state == run.state && reply == run.reply
      && ctx.artifacts == old(ctx.artifacts) + (if run.saved then [Artifact(outputFilename, "text/x-python")] else [])
  {
    if rendered.Raised? {
      return ToolFailed(rendered.error, PythonFailed(outputFilename, rendered.error));
    }
    var version := ctx.SaveArtifact(outputFilename, "text/x-python", saveOutcome);
    if version.Raised? {
      return ToolFailed(version.error, PythonFailed(outputFilename, version.error));
    }
    if "endpoints" in context {
      var endpoints := context["endpoints"];
      var stored := "api_endpoints" in ctx.state;
      var apiEndpoints := Get(ctx.state, "api_endpoints", JList([]));
      match Iterate(endpoints) {
        case NotIterable =>
          var e := NotIterableError(endpoints);
          return ToolFailed(e, PythonFailed(outputFilename, e));
        case Keys(_) =>
          var e := if apiEndpoints.JList? then StringIndexError else NoAttribute(apiEndpoints, "append");
          return ToolFailed(e, PythonFailed(outputFilename, e));
        case Elements(es) =>
          if !apiEndpoints.JList? {
            if es != [] {
              var e := NoAttribute(apiEndpoints, "append");
              return ToolFailed(e, PythonFailed(outputFilename, e));
            }
          } else {
            var appended := ExtendEndpoints(ctx, apiEndpoints.items, es, outputFilename, stored);
            if appended.error.Some? {
              return ToolFailed(appended.error.value, PythonFailed(outputFilename, appended.error.value));
            }
            ctx.state := ctx.state["api_endpoints" := JList(appended.items)];
          }
      }
    }
    reply := Generated(outputFilename, version.value, PythonDone(outputFilename));
  }

  /** Lines 155-160: the loop over the entries. When the list came from the
      state (`stored`), each append is visible there at once. */
  method ExtendEndpoints(ctx: ToolContext, items0: seq<Json>, es: seq<Json>, outputFilename: string, stored: bool)
    returns (r: Appended)
    requires stored ==> "api_endpoints" in ctx.state && ctx.state["api_endpoints"] == JList(items0)
    modifies ctx
    ensures r == AppendEndpoints(items0, es, outputFilename)
    ensures ctx.state == if stored then old(ctx.state)["api_endpoints" := JList(r.items)] else old(ctx.state)
    ensures ctx.artifacts == old(ctx.artifacts)
  {
    var items := items0;
    var i := 0;
    assert es[i..] == es;
    if stored {
      assert ctx.state["api_endpoints" := JList(items)] == ctx.state;
    }
    while i < |es|
      invariant 0 <= i <= |es|
      invariant AppendEndpoints(items0, es, outputFilename) == AppendEndpoints(items, es[i..], outputFilename)
      invariant ctx.state == if stored then old(ctx.state)["api_endpoints" := JList(items)] else old(ctx.state)
      invariant ctx.artifacts == old(ctx.artifacts)
    {
      assert es[i..][0] == es[i];
      assert es[i..][1..] == es[i + 1..];
      var record := EndpointRecord(es[i], outputFilename);
      if record.Err? {
        return Appended(items, Some(record.error));
      }
      items := items + [record.value];
      if stored {
        ctx.state := ctx.state["api_endpoints" := JList(items)];
      }
      i := i + 1;
    }
    assert es[i..] == [];
    r := Appended(items, None);
  }

  // ---------------------------------------------------------------------
  // direct_code_generation
  // ---------------------------------------------------------------------

  /** The text after the last `.` of a file name; the whole name when it has none. */
  function FileType(outputFilename: string): string {
    var parts := Split(outputFilename, '.');
    parts[|parts| - 1]
  }

  /** `generated_<ext>_files` */
  function MetadataKey(outputFilename: string): string {
    "generated_" + FileType(outputFilename) + "_files"
  }

  /** The key names the extension after the last dot, or the whole name
      when there is no dot. */
  lemma MetadataKeyOfName(base: string, ext: string)
    ensures '.' !in ext ==> MetadataKey(base + "." + ext) == "generated_" + ext + "_files"
    ensures '.' !in base ==> MetadataKey(base) == "generated_" + base + "_files"
  {
    if '.' !in ext {
      assert base + "." + ext == base + ['.'] + ext;
      SplitLastPiece(base, '.', ext);
    }
    if '.' !in base {
      SplitWithoutSep(base, '.');
    }
  }

  /** The bookkeeping after a successful save, with the caller's metadata as
      the tool leaves it: non-empty metadata gets its `filename` set before
      it is appended to the list under the key. */
  function DirectState(state: map<string, Json>, outputFilename: string, metadata: Option<map<string, Json>>)
    : (StateStep, Option<map<string, Json>>)
  {
    if metadata.None? || metadata.value == map[] then (StateStep(state, None), metadata)
    else
      var key := MetadataKey(outputFilename);
      var existing := Get(state, key, JList([]));
      var m := metadata.value["filename" := JStr(outputFilename)];
      if existing.JList? then (StateStep(state[key := JList(existing.items + [JObject(m)])], None), Some(m))
      else (StateStep(state, Some(NoAttribute(existing, "append"))), Some(m))
  }

  function DirectDone(f: string): string { "파일 '" + f + "'이 성공적으로 생성되었습니다." }
  function DirectFailed(f: string, e: string): string { "파일 '" + f + "' 생성 실패: " + e }

  function DirectRun(state: map<string, Json>, outputFilename: string, metadata: Option<map<string, Json>>,
                     saveOutcome: Call<int>): (ToolRun, Option<map<string, Json>>)
  {
    if saveOutcome.Raised? then (ToolRun(state, false, ToolFailed(saveOutcome.error, DirectFailed(outputFilename, saveOutcome.error))), metadata)
    else
      var (step, m) := DirectState(state, outputFilename, metadata);
      if step.error.Some? then (ToolRun(step.state, true, ToolFailed(step.error.value, DirectFailed(outputFilename, step.error.value))), m)
      else (ToolRun(step.state, true, Generated(outputFilename, saveOutcome.value, DirectDone(outputFilename))), m)
  }

  /** Missing or empty metadata leaves the state alone. Otherwise the
      metadata, with `filename` set to the output name, is appended to the
      list under `generated_<ext>_files` and nothing else changes. */
  lemma DirectBookkeeping(state: map<string, Json>, outputFilename: string, metadata: Option<map<string, Json>>)
    ensures metadata.None? || metadata.value == map[] ==>
      DirectState(state, outputFilename, metadata) == (StateStep(state, None), metadata)
    ensures metadata.Some? && metadata.value != map[] ==>
      var (step, m) := DirectState(state, outputFilename, metadata);
      var key := MetadataKey(outputFilename);
      m.Some? && m.value.Keys == metadata.value.Keys + {"filename"} && m.value["filename"] == JStr(outputFilename)
      && (forall k :: k in metadata.value && k != "filename" ==> m.value[k] == metadata.value[k])
      && (Get(state, key, JList([])).JList? ==>
            step.error.None? && step.state.Keys == state.Keys + {key}
            && step.state[key] == JList(Get(state, key, JList([])).items + [JObject(m.value)])
            && forall k :: k in state && k != key ==> step.state[k] == state[k])
      && (!Get(state, key, JList([])).JList? ==> step.state == state && step.error.Some?)
  {
  }

  method DirectCodeGeneration(ctx: ToolContext, codeContent: string, outputFilename: string, mimeType: string,
                              metadata: Option<map<string, Json>>, saveOutcome: Call<int>)
    returns (reply: ToolReply, metadataAfter: Option<map<string, Json>>)
    modifies ctx
    ensures var (run, m) := DirectRun(old(ctx.state), outputFilename, metadata, saveOutcome);
      ctx.state == run.state && reply == run.reply && metadataAfter == m
      && ctx.artifacts == old(ctx.artifacts) + (if run.saved then [Artifact(outputFilename, mimeType)] else [])
  {
    metadataAfter := metadata;
    var version := ctx.SaveArtifact(outputFilename, mimeType, saveOutcome);
    if version.Raised? {
      return ToolFailed(version.error, DirectFailed(outputFilename, version.error)), metadataAfter;
    }
    if metadata.Some? && metadata.value != map[] {
      var metadataKey := "generated_" + FileType(outputFilename) + "_files";
      var existing := Get(ctx.state, metadataKey, JList([]));
      metadataAfter := Some(metadata.value["filename" := JStr(outputFilename)]);
      if !existing.JList? {
        var e := NoAttribute(existing, "append");
        return ToolFailed(e, DirectFailed(outputFilename, e)), metadataAfter;
      }
      ctx.state := ctx.state[metadataKey := JList(existing.items + [JObject(metadataAfter.value)])];
    }
    reply := Generated(outputFilename, version.value, DirectDone(outputFilename));
  }
}
