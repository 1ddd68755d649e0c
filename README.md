# agentofflutter — a Dafny model of the generator's core

agentofflutter builds Flutter apps from a JSON app description through a
tree of agent groups. Its core has these parts:

- an HTTP job server (`src/api/app.py`). It takes a description, makes a
  record under a fresh job id and schedules a task. The task writes the
  project files and fills in the record's artifact list. The routes
  report on records, guard the downloads, count records by status and
  add the Android build files to an existing job.
- the agent tools around it:
  - the three code-generation tools. They save an artifact and record
    class, endpoint or file metadata in the session state.
  - the six Android file tools.
  - the Dart static-analysis tool, which parses `dart analyze` output.
  - the Android build-file test.
  - the model-test generator.
  - the six `register_*` functions that assemble each agent group.
- the Dart naming and type helpers (`src/utils/dart_utils.py`).
- the per-agent model settings (`src/config/settings.py`).
- two maintenance scripts (`fix_whitespace.py` and `fix_all_pep8.py`).
  Each has an identical copy under `scripts/`, and the same modules model
  both copies.

The model is split into Dafny modules that follow the program. Each
module's form follows its source:

- Pure Python functions and string transforms are functions with
  lemmas.
- Objects the source mutates in place are classes with `modifies`
  frames:
  - the server's `active_jobs` map is `JobServer.JobStore`;
  - the tool context's session state and saved artifacts are
    `Tools.ToolContext`.
- Python loops are methods with loop invariants. Each method is proved
  equal to a specification function, and the properties are proved
  about that function.

Anything the core gets from outside is a parameter of the operation:

- the clock;
- uuid generation;
- the request body;
- the filesystem's failures;
- the subprocess's output;
- `save_artifact`'s outcome;
- `read_artifact`;
- the process environment;
- an agent tool call.

An exception is modelled as a value: `Call.Raised`, `Result.Err` or `Option`.

Modules:

- `Outcomes`, `Text` and `Json` hold the shared pieces:
  - `Option` and `Result`;
  - Python string semantics: `lower`, `split`, `join`, `strip`,
    `replace`, `splitlines` and `int()`;
  - JSON values with Python's truthiness, `len` and iteration.
- `Tools` models the tool context.
- `JobServer` models `app.py`.
- `CodeGeneration`, `AndroidGroup`, `AndroidPaths`, `AndroidTest`,
  `ModelTestCase`, `DartStaticAnalysis`, `AgentTree` and `AgentGroups`
  model the agents and tools.
- `DartUtils` and `PackageSlug` model the naming helpers.
- `Settings` models the settings.
- `WhitespaceFix` and `Pep8Fix` model the two scripts.

## Model

| member | source | states |
|---|---|---|
| `JobServer.JobStore.constructor` | src/api/app.py:66 | the server starts with no job records |
| `JobServer.JobStore.Submit` | src/api/app.py:257-303 | the record map becomes exactly the submitted map and the reply is the submission reply; every record stays stored under its own id |
| `JobServer.SubmitStoresOneRecord` | src/api/app.py:264-296 | an object body adds exactly one record under the fresh id: pending, progress 0, no artifacts, the initial message, the folder `App_<name>_v<clock mod 10000>`. Other records are untouched, and the reply echoes the record. A body that is not an object, or fails to parse, changes nothing and answers 500 |
| `JobServer.DefaultFolderName` | src/api/app.py:267-269 | without `app_name` the folder is named after `flutter_app` |
| `JobServer.SubmitKeepsKeyedById` | src/api/app.py:275-284 | submission preserves the invariant that each record's `job_id` is its key |
| `JobServer.MapAll` | src/api/app.py:361-420 | a list comprehension stopping at the first raising element: it succeeds iff every element succeeds, and then gives one result per element in order |
| `JobServer.MapAllStep` | src/api/app.py:361-420 | one loop step: the run over `xs[i..]` is element `i` followed by the run over `xs[i+1..]` |
| `JobServer.ThenAppend` | src/api/app.py:361-420 | the results collected so far can absorb one more element without changing the final outcome |
| `JobServer.FieldLinesAgree` | src/api/app.py:372-385 | a field's declaration ends in its name and its constructor parameter is `this.<name>,`; a field without `nullable` is declared nullable (`T?`); a non-nullable field is declared `final` |
| `JobServer.CollectFieldLines` | src/api/app.py:372-385 | the field loop yields exactly the field-by-field lines, or the first field's exception |
| `JobServer.CollectModelFiles` | src/api/app.py:361-420 | the model loop records one `models/<lower name>.dart` per model in order, or stops at the first exception |
| `JobServer.CollectPageFiles` | src/api/app.py:428-465 | the page loop records one `pages/<lower page>.dart` per page in order, or stops at the first exception |
| `JobServer.AndroidFiles` | src/api/app.py:851-863 | there are always eleven Android paths |
| `JobServer.Prefixed` | src/api/app.py:872 | `lib/` is put in front of each path, keeping order and count |
| `JobServer.PrefixedConcat` | src/api/app.py:872 | prefixing distributes over the model list followed by the page list |
| `JobServer.ModelFileWellFormed` | src/api/app.py:362-420 | a well-formed model entry is recorded as `models/<lower name>.dart` |
| `JobServer.ModelFilesWellFormed` | src/api/app.py:357-420 | a list of well-formed models never fails, and after prefixing it gives `lib/models/<name>.dart` per model, in order |
| `JobServer.PageFilesOfStrings` | src/api/app.py:424-465 | a list of page-name strings never fails, and after prefixing it gives `lib/pages/<page>.dart` per page, in order |
| `JobServer.ModelsPath` | src/api/app.py:420 | the recorded model path plus the `lib/` prefix is `lib/models/<name>.dart` |
| `JobServer.PagesPath` | src/api/app.py:465 | the recorded page path plus the `lib/` prefix is `lib/pages/<page>.dart` |
| `JobServer.GenerateWellFormed` | src/api/app.py:322-872 | a spec with a string name, well-formed models and string pages produces exactly the scaffold, then the model paths, then the page paths, then the eleven Android paths for the name's slug |
| `JobServer.GenerateEmptySpec` | src/api/app.py:322-872 | an empty spec produces the three scaffold files followed by the Android files for `flutter_app` |
| `JobServer.GenerateFailures` | src/api/app.py:334-420 | a filesystem failure is the run's error; a non-object first model makes the run fail; a successful run had a string app name |
| `JobServer.GenerateShape` | src/api/app.py:868-872 | every successful artifact list has at least 14 entries, starts with `lib/main.dart` and ends with the eleven Android paths |
| `JobServer.RunGeneration` | src/api/app.py:322-872 | the body of the scheduled task computes exactly the specified artifact list or error |
| `JobServer.JobStore.StartAppCreation` | src/api/app.py:306-899 | the record map becomes the map with the task's outcome applied to the job, and every record stays stored under its own id |
| `JobServer.GenerationOutcome` | src/api/app.py:875-899 | the task never leaves a known record pending or running. Success gives completed, progress 100, the artifact list and the completion message. An error gives failed and the error prefix plus the error text, with progress and artifacts kept. All other records and all keys are unchanged |
| `JobServer.SubmitThenGenerate` | src/api/app.py:275-899 | a submitted job is pending, and once its task has run it is completed or failed, never running; a failed fresh job still has progress 0 and no artifacts |
| `JobServer.JobStore.GetJobStatus` | src/api/app.py:903-923 | 404 exactly for an unknown id; otherwise the record's view, which carries its own id |
| `JobServer.JobStore.GetAllJobs` | src/api/app.py:927-942 | one view per record, under the record's id, and nothing else |
| `JobServer.JobStore.GetServerStatus` | src/api/app.py:1186-1216 | active = pending + running, completed and failed counted by status; the three counts add up to the number of records |
| `JobServer.StatusCountsPartition` | src/api/app.py:1194-1205 | the four status counts partition the record map |
| `JobServer.JobStore.DownloadArtifact` | src/api/app.py:946-1096 | 404 for an unknown id and 400 unless the record is completed; a completed record still never yields a file, because no record ever holds a runner |
| `JobServer.ContentTypeBySuffix` | src/api/app.py:1068-1078 | `.dart`, `.py`, `.json`, `.yaml`/`.yml` and `.md` names get their own media types, whatever precedes the suffix |
| `JobServer.EndsWithSuffix` | src/api/app.py:1068-1078 | a name built as base plus suffix ends with that suffix |
| `JobServer.SuffixesDiffer` | src/api/app.py:1068-1078 | no name ends with two of the known suffixes, so the order of the `elif` chain does not matter |
| `JobServer.ContentTypeFallback` | src/api/app.py:1068-1078 | `application/octet-stream` is chosen iff the name has none of the known suffixes |
| `JobServer.JobStore.DownloadZip` | src/api/app.py:1099-1183 | 404 for an unknown id; 400 iff the record is not completed; for a completed record, 404 iff the output directory is missing and otherwise 500 |
| `JobServer.ZipNameOfSubmittedJob` | src/api/app.py:1135-1140 | for a folder named at submission, the archive name is the folder name plus `.zip` |
| `JobServer.MergeArtifacts` | src/api/app.py:1639-1644 | the append loop computes the order-preserving merge of the Android paths into the artifact list |
| `JobServer.MergeNewProperties` | src/api/app.py:1639-1644 | the merge keeps the old list as a prefix, adds at most the new paths, contains every new path, adds nothing else and introduces no duplicates |
| `JobServer.MergeNewPresent` | src/api/app.py:1639-1644 | merging paths that are all present already leaves the list unchanged |
| `JobServer.MergeNewTwice` | src/api/app.py:1639-1644 | merging twice gives the same list as merging once |
| `JobServer.JobStore.RegenerateAndroid` | src/api/app.py:1269-1314 | an unknown id answers 404 and changes nothing; a known record is marked running, then put through the build step, and the reply shows the record as left; every record stays stored under its own id |
| `JobServer.AndroidRegenerationOutcome` | src/api/app.py:1285-1663 | regeneration passes through running at 50 and ends completed or failed. Completion sets progress 100, keeps the old artifacts as a prefix and contains all eleven Android paths. Failure keeps progress 50 and the artifacts |
| `JobServer.AndroidAfterGenerationAddsNothing` | src/api/app.py:1639-1650 | regenerating a job that generation completed leaves its artifact list as it was |
| `Tools.Names` | src/agents/tdd_group/android_test_agent.py:54 | the artifact names are the saved artifacts' file names, in order |
| `Tools.ToolContext.constructor` | src/tools/code_generation.py:74-77 | a fresh context holds the given state and no artifacts |
| `Tools.ToolContext.SaveArtifact` | src/tools/code_generation.py:74-77 | a successful save appends one artifact and returns the service's version; a failed save changes nothing and raises; the state is never touched |
| `Tools.ToolContext.ListArtifacts` | src/agents/tdd_group/android_test_agent.py:54 | a name is listed iff some saved artifact has that file name |
| `CodeGeneration.DartFileBookkeeping` | src/tools/code_generation.py:80-94 | without `class_name` the state is unchanged. With it and a list under `generated_models`, exactly one record is appended. The record is `{name, file, fields (default []), type (default "model")}`, and it is also stored under `model_<class_name>`. Other keys are unchanged |
| `CodeGeneration.DartFileOutcome` | src/tools/code_generation.py:63-110 | the state changes only after the save returns; version and filename come from the save; a render or save failure leaves the state unchanged and answers `success: False` with the error in the message |
| `CodeGeneration.GenerateDartFile` | src/tools/code_generation.py:40-110 | the tool's state, reply and single `text/x-dart` artifact are those of the specification |
| `CodeGeneration.AppendEndpointsAll` | src/tools/code_generation.py:155-160 | when every endpoint has `path` and `method`, one `{path, method, file}` record per endpoint is appended in order |
| `CodeGeneration.AppendEndpointsStops` | src/tools/code_generation.py:155-160 | when entry `n` is the first malformed one, exactly the records of the entries before it are appended and its exception is raised |
| `CodeGeneration.PythonEndpointsAppended` | src/tools/code_generation.py:153-161 | `api_endpoints` becomes the previous list followed by one record per endpoint, in context order; the rest of the state is unchanged |
| `CodeGeneration.PythonPartialAppend` | src/tools/code_generation.py:153-161 | a malformed endpoint raises. When `api_endpoints` was missing the state is unchanged. When it was a stored list, that list has already grown by the records before the bad entry |
| `CodeGeneration.ExtendEndpoints` | src/tools/code_generation.py:155-160 | the endpoint loop appends into the stored list in place; only `api_endpoints` changes, and only when the list was stored |
| `CodeGeneration.GeneratePythonFile` | src/tools/code_generation.py:113-176 | the tool's state, reply and single `text/x-python` artifact are those of the specification |
| `CodeGeneration.MetadataKeyOfName` | src/tools/code_generation.py:215-216 | the metadata key names the text after the last `.`, or the whole name when there is none |
| `CodeGeneration.DirectBookkeeping` | src/tools/code_generation.py:213-226 | missing or empty metadata leaves the state alone. Otherwise `filename` is set in the metadata and the metadata is appended to `generated_<ext>_files`, with the rest of the state unchanged. A non-list under that key raises |
| `CodeGeneration.DirectCodeGeneration` | src/tools/code_generation.py:179-241 | the tool's state, reply, mutated metadata and single artifact of the given media type are those of the specification |
| `PackageSlug.SlugPointwise` | src/agents/android_group/android_group_agent.py:100 | the slug has the name's length; ASCII capitals are lowered and `-` and space become `_`, every other character is kept |
| `PackageSlug.SlugIdempotent` | src/api/app.py:594 | a slug is its own slug |
| `PackageSlug.DefaultNameSlug` | src/api/app.py:1327 | the default app name `flutter_app` is already a slug |
| `AndroidGroup.AppNameSlug` | src/agents/android_group/android_group_agent.py:99-100 | the slug is computed iff the state's `app_name` (default `flutter_app`) is a string |
| `AndroidGroup.StringsAppName` | src/agents/android_group/android_group_agent.py:385-386 | `strings.xml` reads the name from `app_spec`, defaulting to `Flutter App`; it fails iff `app_spec` is present but not an object |
| `AndroidGroup.Target` | src/agents/android_group/android_group_agent.py:14-413 | the two project-level gradle tools never fail on the state; the three slug tools fail iff the slug cannot be computed; `strings.xml` fails iff its name lookup fails |
| `AndroidGroup.CreateReplyOf` | src/agents/android_group/android_group_agent.py:67-84 | a tool succeeds iff reading the state and the save both succeed. Success names the saved file and the done message. Failure carries the first error and the tool's failure prefix |
| `AndroidGroup.Create` | src/agents/android_group/android_group_agent.py:14-418 | one run leaves the state alone and saves at most one artifact, the reported file with the tool's media type |
| `AndroidGroup.TargetFile` | src/agents/android_group/android_group_agent.py:68 | a tool that gets past the state saves its fixed file for the slug |
| `AndroidGroup.DefaultMainActivityPath` | src/agents/android_group/android_group_agent.py:261-283 | without `app_name`, `MainActivity.kt` goes under `com/example/flutter_app` |
| `AndroidGroup.FileNameAmongServerFiles` | src/api/app.py:851-863 | each tool's file is one of the job server's eleven Android paths for the same slug |
| `AndroidGroup.TargetsAmongServerFiles` | src/api/app.py:851-863 | every file a tool saves from a state is among the server's Android paths for that state's slug |
| `AndroidGroup.FileNamesDistinct` | src/agents/android_group/android_group_agent.py:68-401 | no two tools save the same file |
| `AndroidGroup.ToolAgent` | src/agents/android_group/android_group_agent.py:430-465 | each tool's agent is a leaf |
| `AndroidGroup.RegisterAndroidAgents` | src/agents/android_group/android_group_agent.py:482-514 | whatever the spec holds, and also when construction raises, the result is `AndroidGroupAgent` with the six tool agents in fixed order |
| `AgentTree.ChildNames` | src/agents/model_group/model_group_agent.py:18-21 | the names of a group's sub-agents, in order |
| `AgentGroups.Registered` | src/agents/model_group/model_group_agent.py:35-56 | the freshly built group is returned when the key test and construction succeed, and the module-level group otherwise |
| `AgentGroups.RegisterModelAgents` | src/agents/model_group/model_group_agent.py:25-56 | always the parallel `ModelGroupAgent` with the single child `UserModelAgent`, however many models the spec has |
| `AgentGroups.RegisterWebviewAgents` | src/agents/webview_group/webview_group_agent.py:25-56 | always the parallel `WebviewGroupAgent` with the single child `HomePageViewAgent` |
| `AgentGroups.RegisterApiAgents` | src/agents/api_group/api_group_agent.py:23-54 | always the parallel `APIGroupAgent` with the single child `UserAPIRoutesAgent` |
| `AgentGroups.RegisterControllerAgents` | src/agents/controller_group/controller_group_agent.py:25-56 | always the plain (not parallel) `ControllerGroupAgent` with the single child `UserControllerAgent` |
| `AgentGroups.RegisterSecurityAgents` | src/agents/security_group/security_group_agent.py:23-54 | always the plain `SecurityGroupAgent` with the single child `DartStaticAnalysisAgent` |
| `AgentGroups.RegisterTddAgents` | src/agents/tdd_group/tdd_group_agent.py:24-54 | always the plain `TDDGroupAgent` with the children `ModelTestCaseAgent` then `AndroidTestAgent` |
| `AndroidTest.ActualPaths` | src/agents/tdd_group/android_test_agent.py:47-51 | one actual path per required file, with the slug substituted |
| `AndroidTest.ActualPathsExplicit` | src/agents/tdd_group/android_test_agent.py:29-51 | only the `MainActivity.kt` entry changes, gaining the slug as its package directory |
| `AndroidTest.RequiredAmongServerFiles` | src/agents/tdd_group/android_test_agent.py:29-39 | every required file is one of the eleven Android paths the job server lists for the same slug |
| `AndroidTest.OutcomePartition` | src/agents/tdd_group/android_test_agent.py:50-60 | each path lands in exactly one of passed/failed, by its membership in the artifact names, and the lists hold nothing else; nothing fails iff all are present |
| `AndroidTest.CheckRequired` | src/agents/tdd_group/android_test_agent.py:47-60 | the check loop computes exactly that partition against `list_artifacts()` |
| `AndroidTest.LinesStartWithBullet` | src/agents/tdd_group/android_test_agent.py:80-90 | a report section built from items starts with its bullet |
| `AndroidTest.FailedSectionIff` | src/agents/tdd_group/android_test_agent.py:86-90 | the failed section is the all-passed line iff nothing failed |
| `AndroidTest.WriteReport` | src/agents/tdd_group/android_test_agent.py:67-90 | the report built by appending equals the specified report text |
| `AndroidTest.TestRun` | src/agents/tdd_group/android_test_agent.py:13-120 | success iff the session id, the slug and the save succeed. Success always reports 9 tests, with passed + failed = 9 and passed iff none failed. The report and the message are fixed. Failure carries the error in the message |
| `AndroidTest.TestPassedIff` | src/agents/tdd_group/android_test_agent.py:104-111 | the test passes iff the run succeeds and every required file, with the slug, is among the artifact names |
| `AndroidTest.TestAndroidBuildFiles` | src/agents/tdd_group/android_test_agent.py:13-120 | the tool's reply is the specification's; the state is not touched; the report artifact is saved iff the run succeeds |
| `ModelTestCase.StripAffixes` | src/agents/tdd_group/model_test_case_agent.py:68-73 | removing every prefix occurrence and then every suffix occurrence from prefix + `p` + suffix gives back `p`, when `p` holds neither and neither can overlap a seam |
| `ModelTestCase.TestPathOfLibFile` | src/agents/tdd_group/model_test_case_agent.py:68-73 | `lib/<p>.dart` is tested in `test/<p>_test.dart` whenever `p` contains no `lib/` and no `.dart`, e.g. `lib/models/book.dart` gives `test/models/book_test.dart` |
| `ModelTestCase.TestCase` | src/agents/tdd_group/model_test_case_agent.py:44-80 | a record with `name`, `file` and `fields` gives the `model_test.dart.j2` request: `<name>Test`, the fields copied, dependencies `flutter_test` and the file, output at the test path. A missing key or a non-object record raises the subscript error |
| `ModelTestCase.TestRequestLeavesStateAlone` | src/agents/tdd_group/model_test_case_agent.py:56-65 | the test context has no `class_name`, so the Dart file tool adds no record to the state |
| `ModelTestCase.ModelTests` | src/agents/tdd_group/model_test_case_agent.py:94-97 | a missing or empty `generated_models` issues nothing |
| `ModelTestCase.IssueAllComplete` | src/agents/tdd_group/model_test_case_agent.py:100-101 | when every record is well formed and no call raises, one request per record is issued, in list order |
| `ModelTestCase.IssueAllPrefix` | src/agents/tdd_group/model_test_case_agent.py:100-101 | at most one request per record, and the issued requests are those of the leading records in order; one per record iff nothing raised |
| `ModelTestCase.IssueAllStops` | src/agents/tdd_group/model_test_case_agent.py:100-101 | once a prefix of the records ends in an exception, the later records are never reached |
| `ModelTestCase.GenerateModelTests` | src/agents/tdd_group/model_test_case_agent.py:83-101 | the loop issues exactly the specified requests and only reads the session |
| `DartUtils.Underscored` | src/utils/dart_utils.py:19 | step 1 keeps ASCII letters and digits and turns every other character into `_`, keeping the length |
| `DartUtils.CaseFirst` | src/utils/dart_utils.py:25-27 | step 3 changes only the first character's case |
| `DartUtils.SanitizedIsAlnum` | src/utils/dart_utils.py:19-31 | both sanitizers return only ASCII letters and digits; every `_` is removed by the split and join |
| `DartUtils.SanitizeLetterFirst` | src/utils/dart_utils.py:25-31 | an input starting with a letter keeps it first, upper-cased for a class name and lower-cased for a variable name |
| `DartUtils.SanitizeStartsWithDigit` | src/utils/dart_utils.py:22-31 | an input starting with a digit yields an output starting with that digit: the `_` added at step 2 is dropped again |
| `DartUtils.CapitalizedTailHead` | src/utils/dart_utils.py:31 | the joined later pieces, if any, start with an upper-case letter or a digit |
| `DartUtils.ClassNameHead` | src/utils/dart_utils.py:8-33 | a class name starts with an upper-case letter or a digit |
| `DartUtils.ClassNameFixpoint` | src/utils/dart_utils.py:8-33 | an alphanumeric name starting with a capital is left unchanged |
| `DartUtils.ClassNameIdempotent` | src/utils/dart_utils.py:8-33 | sanitizing twice equals sanitizing once unless the result starts with a digit |
| `DartUtils.ClassNameNotIdempotentExample` | src/utils/dart_utils.py:22-31 | `9a_b` becomes `9aB`, which becomes `9ab` |
| `DartUtils.DigitLedWord` | src/utils/dart_utils.py:22-31 | a digit-led name of letters and digits comes out as Python's `capitalize` of it: the later letters are lowered |
| `DartUtils.KeepingPrefixIsIdentifier` | src/utils/dart_utils.py:21-23 | with the step-2 underscore kept, every non-empty result is a Dart identifier, and a digit-led name gets exactly one `_` in front |
| `DartUtils.WordEnd` | src/utils/dart_utils.py:88 | the end of the longest `\w` run from a position |
| `DartUtils.SpaceEnd` | src/utils/dart_utils.py:94 | the end of the longest `\s` run from a position |
| `DartUtils.ListMatch` | src/utils/dart_utils.py:88 | matches exactly `list[<word>]` at the start, capturing the word |
| `DartUtils.DictMatch` | src/utils/dart_utils.py:94 | matches exactly `dict[<word>,<spaces><word>]` at the start, capturing both words |
| `DartUtils.NeverVoid` | src/utils/dart_utils.py:74-102 | no input maps to `void`, because the lookup key is lower-cased first |
| `DartUtils.NoneIsDynamic` | src/utils/dart_utils.py:81-102 | `None` gives `dynamic` |
| `DartUtils.TableLookups` | src/utils/dart_utils.py:74-102 | every table key other than `None` is mapped to its own table entry |
| `DartUtils.DartTypeOfLower` | src/utils/dart_utils.py:88-102 | the mapping depends only on the lower-cased input |
| `DartUtils.ListType` | src/utils/dart_utils.py:88-91 | `list[T]` in any letter case becomes `List<f(T)>` |
| `DartUtils.DictType` | src/utils/dart_utils.py:94-100 | `dict[K, V]` becomes `Map<f(K), f(V)>` with any whitespace after the comma |
| `DartUtils.ImportLines` | src/utils/dart_utils.py:129-141 | one import line per dependency |
| `DartUtils.ImportUriShape` | src/utils/dart_utils.py:129-141 | a dependency that is not a `package:` URI is imported from a `.dart` file, and a dependency outside the standard table appears in its own import |
| `DartUtils.GenerateDartImports` | src/utils/dart_utils.py:105-143 | the loop builds one import line per dependency in order, joined by newlines |
| `DartUtils.ImportsSplitIntoLines` | src/utils/dart_utils.py:143 | splitting the output at newlines gives back one line per dependency |
| `DartUtils.NoDependenciesNoImports` | src/utils/dart_utils.py:117-143 | no dependencies give the empty string |
| `Settings.DefaultModel` | src/config/settings.py:21 | `DEFAULT_MODEL` from the environment, else `gemini-1.5-flash` |
| `Settings.Resolved` | src/config/settings.py:80-86 | a known agent type is used as is; any other falls back to `default` |
| `Settings.Merged` | src/config/settings.py:80-87 | the merged dictionary has the union of the keys; keys no entry writes keep their values |
| `Settings.AgentConfigContents` | src/config/settings.py:53-89 | the result has exactly the keys `model` and `temperature`. The model is the default model. The temperature is 0.1 for the model and security agents, 0.3 for webview and 0.2 otherwise |
| `Settings.UnknownTypeIsDefault` | src/config/settings.py:83-87 | an unknown agent type is configured exactly as `default` |
| `Settings.GetAgentConfig` | src/config/settings.py:53-89 | the merge loop builds exactly that configuration |
| `DartStaticAnalysis.ParseLine` | src/agents/security_group/dart_static_analysis_agent.py:88-112 | a line gives an issue iff it is non-empty, does not start with `Analyzing` and has at least three `:` parts. The issue is `info` iff the second part is not an integer, and then it is line 0 with the stripped line as message |
| `DartStaticAnalysis.IntToStringNoColon` | src/agents/security_group/dart_static_analysis_agent.py:90 | a printed line number holds no `:` |
| `DartStaticAnalysis.NotAnalyzingLine` | src/agents/security_group/dart_static_analysis_agent.py:88 | a line whose file part does not start with `Analyzing` is examined |
| `DartStaticAnalysis.ParseLineRoundTrip` | src/agents/security_group/dart_static_analysis_agent.py:90-105 | `file:n:kind:msg` parses back to line `n`, the kind's error/warning, and the stripped message |
| `DartStaticAnalysis.IssuesOf` | src/agents/security_group/dart_static_analysis_agent.py:87-112 | at most one issue per line; no examined line gives no issue |
| `DartStaticAnalysis.IssuesFromLines` | src/agents/security_group/dart_static_analysis_agent.py:87-112 | every issue is the one `ParseLine` reads from some output line |
| `DartStaticAnalysis.IssuesOfConcat` | src/agents/security_group/dart_static_analysis_agent.py:87 | the issues of stdout followed by stderr are stdout's issues followed by stderr's |
| `DartStaticAnalysis.IssuesOfCount` | src/agents/security_group/dart_static_analysis_agent.py:88-112 | exactly one issue per examined line, none dropped |
| `DartStaticAnalysis.Issues` | src/agents/security_group/dart_static_analysis_agent.py:84-87 | exit code 0 gives no issues; otherwise the stdout issues then the stderr issues, by `splitlines` |
| `DartStaticAnalysis.ParseIssues` | src/agents/security_group/dart_static_analysis_agent.py:87-112 | the parse loop computes exactly those issues |
| `DartStaticAnalysis.ReportOf` | src/agents/security_group/dart_static_analysis_agent.py:115-121 | `issues_count` is the number of issues; success iff exit code 0, and then there are no issues |
| `DartStaticAnalysis.AnalyzeRun` | src/agents/security_group/dart_static_analysis_agent.py:19-144 | the report is returned iff the temp write, the process and the save succeed. A non-string content fails with the write's TypeError. A process or save exception becomes the failure's error |
| `DartStaticAnalysis.SavedBy` | src/agents/security_group/dart_static_analysis_agent.py:123-134 | exactly one `analysis_reports/<file>_analysis.json` artifact is saved iff a report is returned |
| `DartStaticAnalysis.RunDartAnalyze` | src/agents/security_group/dart_static_analysis_agent.py:19-144 | the tool's result is the specification's; the state is untouched and only the report artifact is added |
| `DartStaticAnalysis.DartFiles` | src/agents/security_group/dart_static_analysis_agent.py:159-162 | exactly the artifact names ending in `.dart` |
| `DartStaticAnalysis.ProgressAfterError` | src/agents/security_group/dart_static_analysis_agent.py:178-212 | once an exception is raised the loop does nothing more |
| `DartStaticAnalysis.ProgressTotals` | src/agents/security_group/dart_static_analysis_agent.py:178-192 | `total_issues` is the sum of `issues_count` over the results (0 for failed ones); at most one result per file; one saved report per successful result |
| `DartStaticAnalysis.SuccessesAppend` | src/agents/security_group/dart_static_analysis_agent.py:190 | appending a result adds its report to the successes iff it succeeded |
| `DartStaticAnalysis.AllPassedIffNothingAnalysed` | src/agents/security_group/dart_static_analysis_agent.py:195 | as written, `all_passed` holds iff no file was analysed |
| `DartStaticAnalysis.CleanRunNotPassed` | src/agents/security_group/dart_static_analysis_agent.py:195 | one clean analysed file gives `all_passed` false |
| `DartStaticAnalysis.IntendedAllPassedNoIssues` | src/agents/security_group/dart_static_analysis_agent.py:195 | with `all_passed` read from each report's `success`, it implies zero total issues, and the clean run passes |
| `DartStaticAnalysis.SummaryOf` | src/agents/security_group/dart_static_analysis_agent.py:147-212 | no `.dart` names give the empty summary. Otherwise `analyzed_files` is the number of results and `total_issues` their sum, with the done message. An exception gives the failure message. `all_passed` holds iff nothing was analysed |
| `DartStaticAnalysis.AnalyzeEach` | src/agents/security_group/dart_static_analysis_agent.py:178-192 | the file loop computes the specified progress and saves exactly its reports |
| `DartStaticAnalysis.AnalyzeDartFiles` | src/agents/security_group/dart_static_analysis_agent.py:147-212 | the tool's summary is the specification's over the artifact names; the state is untouched |
| `WhitespaceFix.BlankRun` | fix_whitespace.py:33 | the length of the leading run of spaces and tabs |
| `WhitespaceFix.StripLineEndsClean` | fix_whitespace.py:33 | afterwards no line ends in a space or tab; the text does not grow; a non-blank first or last character is kept |
| `WhitespaceFix.StripLineEndsKeepsText` | fix_whitespace.py:33 | only spaces and tabs are removed |
| `WhitespaceFix.StripLineEndsIdentity` | fix_whitespace.py:33 | content without trailing blanks is unchanged |
| `WhitespaceFix.TrimNewlines` | fix_whitespace.py:36 | the content with its final newline run removed |
| `WhitespaceFix.CollapseFinalNewlines` | fix_whitespace.py:36 | a final newline run becomes exactly one newline; content without one gets none; everything before is kept |
| `WhitespaceFix.CollapseIdentity` | fix_whitespace.py:36 | content not ending in two newlines is unchanged |
| `WhitespaceFix.CollapseKeepsNoTrailingBlanks` | fix_whitespace.py:33-36 | step 2 does not bring back trailing blanks |
| `WhitespaceFix.ExpandTabsConcat` | fix_whitespace.py:39 | tab expansion works piece by piece |
| `WhitespaceFix.ExpandTabsNoTab` | fix_whitespace.py:39 | the result holds no tab |
| `WhitespaceFix.ExpandTabsIdentity` | fix_whitespace.py:39 | tab-free content is unchanged |
| `WhitespaceFix.ExpandTabsKeepsNoTrailingBlanks` | fix_whitespace.py:33-39 | expanding tabs after step 1 adds no trailing blanks |
| `WhitespaceFix.ExpandTabsFinalNewlines` | fix_whitespace.py:36-39 | tab expansion keeps whether the content ends in one or two newlines |
| `WhitespaceFix.FixedIsClean` | fix_whitespace.py:33-39 | the fixed content has no trailing blanks and no tabs |
| `WhitespaceFix.FixedFinalNewline` | fix_whitespace.py:33-39 | the fixed content never ends in two newlines, and ends in one iff step 1's output does |
| `WhitespaceFix.FixedTrailingNewline` | fix_whitespace.py:33-39 | content ending in a newline keeps exactly one; content ending in another non-blank character gets none added |
| `WhitespaceFix.FixedIdempotent` | fix_whitespace.py:33-47 | fixing the fixed content changes nothing, so a second run reports no change |
| `WhitespaceFix.FixWhitespaceIssues` | fix_whitespace.py:16-47 | reports a change iff the fixed content differs, and writes the fixed content only then |
| `WhitespaceFix.PathJoin` | fix_whitespace.py:65 | the joined path ends with the name |
| `WhitespaceFix.PythonFilesIn` | fix_whitespace.py:63-65 | every listed path ends in `.py`, and every `.py` name of the directory is listed, joined to it |
| `WhitespaceFix.PythonFiles` | fix_whitespace.py:61-67 | exactly the `.py` files of the whole walk, joined to their directories |
| `WhitespaceFix.FindPythonFiles` | fix_whitespace.py:50-67 | the nested loop collects exactly those paths in walk order |
| `Pep8Fix.Codes` | fix_all_pep8.py:15-23 | a path outside the problem table has no codes |
| `Pep8Fix.UnlistedUntouched` | fix_all_pep8.py:89 | no fixer acts on a path outside the table |
| `Pep8Fix.SingleFileFixers` | fix_all_pep8.py:15-23 | the comma fix acts only on the orchestrator and the f-string fix only on the client |
| `Pep8Fix.UnusedVariableTargets` | fix_all_pep8.py:111 | the unused-variable fix acts only on the Android group agent and the client |
| `Pep8Fix.Repeat` | fix_all_pep8.py:34 | `[s] * n`: n copies, none for a negative n |
| `Pep8Fix.AggressiveFlagsPieces` | fix_all_pep8.py:34 | the flag string is `--aggressive` repeated `level` times and joined by single spaces; empty for level 0 or less |
| `Pep8Fix.AggressiveFlagsLength` | fix_all_pep8.py:34 | a positive level gives 13 × level − 1 characters |
| `Pep8Fix.JoinAppend` | fix_all_pep8.py:34 | joining one more piece appends the separator and the piece |
| `Pep8Fix.FixLineLength` | fix_all_pep8.py:178-190 | a command is issued iff the file lists E501, and it is the aggressive-3 `autopep8` command |
| `Pep8Fix.CommaFix` | fix_all_pep8.py:98 | the substitution never shortens the text |
| `Pep8Fix.CommaFixInsertsSpaces` | fix_all_pep8.py:98 | only spaces are inserted, one per non-overlapping match |
| `Pep8Fix.WithoutSpacesConcat` | fix_all_pep8.py:98 | removing spaces works piece by piece |
| `Pep8Fix.CommaFixIdentity` | fix_all_pep8.py:98 | text where every comma is followed by whitespace or the end is unchanged |
| `Pep8Fix.CommaFixUnneeded` | fix_all_pep8.py:98 | the same, as an implication for all text |
| `Pep8Fix.DoubleCommaExample` | fix_all_pep8.py:98 | `,,x` becomes `, ,x`: a match consumes the next character, so one pass does not space every comma |
| `Pep8Fix.FixWhitespaceAfterComma` | fix_all_pep8.py:82-101 | writes iff the file lists E231, and then changes only spaces; text with spaced commas is written back unchanged |
| `Pep8Fix.UnusedLine` | fix_all_pep8.py:123-143 | comment lines and lines matching no branch are unchanged. A matching line is right-stripped and gets its branch's note plus a newline |
| `Pep8Fix.SlugCaseNeedsLocalVariable` | fix_all_pep8.py:123-136 | the `app_name_slug` branch is reached only for lines containing `local variable` |
| `Pep8Fix.UnusedLines` | fix_all_pep8.py:122-145 | one output line per input line, each fixed on its own |
| `Pep8Fix.UnusedLinesKeep` | fix_all_pep8.py:122-145 | the line count is kept and comment and unmatched lines are unchanged |
| `Pep8Fix.RewriteUnusedLines` | fix_all_pep8.py:122-145 | the line loop writes exactly the fixed lines, in order |
| `Pep8Fix.FixUnusedVariables` | fix_all_pep8.py:104-148 | writes iff the file lists F841, and then writes exactly the fixed lines |
| `Pep8Fix.FStringLine` | fix_all_pep8.py:167-171 | a line without `f'`/`f"`, or with `{`, is unchanged |
| `Pep8Fix.WithoutFConcat` | fix_all_pep8.py:170 | removing `f` characters works piece by piece |
| `Pep8Fix.DropFKeepsRest` | fix_all_pep8.py:170 | replacing `f` plus a quote by the quote removes only `f` characters |
| `Pep8Fix.FStringLineDropsOnlyF` | fix_all_pep8.py:167-171 | a fixed line differs from the original only by removed `f` characters |
| `Pep8Fix.StaffExample` | fix_all_pep8.py:170 | the replacement also hits words: `'staff'` becomes `'staf'` |
| `Text.ContainsSuffix` | fix_all_pep8.py:167 | a substring at a position is contained in the text |
| `Pep8Fix.FStringLines` | fix_all_pep8.py:166-172 | one output line per input line, each fixed on its own |
| `Pep8Fix.FixFStringPlaceholders` | fix_all_pep8.py:151-175 | writes iff the file lists F541, and then writes exactly the fixed lines |
| `Text.Lower` | src/utils/dart_utils.py:88 | `str.lower` on ASCII: every character lowered, length kept |
| `Text.Capitalize` | src/utils/dart_utils.py:31 | `str.capitalize`: first character upper, the rest lower |
| `Text.RStrip` | fix_all_pep8.py:126 | `str.rstrip`: the longest prefix not ending in whitespace, with only whitespace removed |
| `Text.LStrip` | fix_all_pep8.py:127 | the left half of `str.strip`: the longest suffix not starting with whitespace, with only whitespace removed |
| `Text.Split` | src/utils/dart_utils.py:30 | `str.split(sep)`: at least one piece, no piece holds the separator, one piece iff no separator |
| `Text.JoinSplit` | src/utils/dart_utils.py:30-31 | joining the pieces of a split gives back the text |
| `Text.SplitJoin` | src/utils/dart_utils.py:143 | splitting a join of separator-free pieces gives back the pieces |
| `Text.SplitAfterPiece` | src/utils/dart_utils.py:30 | a split starts with the text before the first separator |
| `Text.SplitWithoutSep` | src/utils/dart_utils.py:30 | text without the separator splits into itself |
| `Text.SplitLastPiece` | src/utils/dart_utils.py:30 | the last piece is the text after the last separator |
| `Text.LowerIdempotent` | src/utils/dart_utils.py:88 | lowering twice is lowering once |
| `Text.LowerConcat` | src/utils/dart_utils.py:88 | lowering works piece by piece |
| `Text.ReplaceChar` | src/agents/android_group/android_group_agent.py:100 | replacing one character by another rewrites exactly its occurrences |
| `Text.ReplaceAllSingleChar` | src/agents/android_group/android_group_agent.py:100 | `str.replace` of one character is the pointwise replacement |
| `Text.NoMatchReplaceIdentity` | src/agents/tdd_group/model_test_case_agent.py:68-73 | replacing a pattern the text does not contain changes nothing |
| `Text.ReplaceAllSkip` | src/agents/tdd_group/model_test_case_agent.py:68-73 | a prefix without the pattern's first character passes through unchanged |
| `Text.ReplaceAllFront` | src/agents/tdd_group/model_test_case_agent.py:68-73 | a leading occurrence is replaced and the rest is processed after it |
| `Text.ReplaceAllAbsent` | fix_whitespace.py:39 | text without the pattern's first character is unchanged |
| `Text.ReplaceAllMissingChar` | fix_all_pep8.py:170 | text missing any one character of the pattern is unchanged |
| `Text.FirstBreak` | src/agents/security_group/dart_static_analysis_agent.py:87 | the position of the first `splitlines` line break, with none before it |
| `Text.SplitLines` | src/agents/security_group/dart_static_analysis_agent.py:87 | `str.splitlines`: no line holds a break, and there are no lines iff the text is empty |
| `Text.SplitLinesAfterLine` | src/agents/security_group/dart_static_analysis_agent.py:87 | a line followed by `\n` is the first line, and the rest is split after it |
| `Text.FirstBreakOfLine` | src/agents/security_group/dart_static_analysis_agent.py:87 | the first break follows the first line |
| `Text.SplitLinesOfLine` | src/agents/security_group/dart_static_analysis_agent.py:87 | a non-empty text without breaks is one line |
| `Text.NatToString` | src/api/app.py:268 | the decimal digits of a number |
| `Text.DigitsValueOfNat` | src/agents/security_group/dart_static_analysis_agent.py:93 | reading back the printed digits gives the number |
| `Text.StripOfNoSpace` | src/agents/security_group/dart_static_analysis_agent.py:93 | `strip` leaves text without whitespace unchanged |
| `Text.ParseInt` | src/agents/security_group/dart_static_analysis_agent.py:93 | `int()` succeeds exactly on an optionally signed run of digits after stripping, and a negative value comes from a leading `-` |
| `Text.ParseIntOfIntToString` | src/agents/security_group/dart_static_analysis_agent.py:93 | `int(str(n)) == n` |
| `Json.Get` | src/api/app.py:267 | `dict.get(key, default)`: the stored value, or the default for a missing key |
| `Json.Len` | src/api/app.py:359 | `len` is defined exactly on strings, lists and dicts |
| `Json.Iterate` | src/api/app.py:361 | iteration is defined exactly where `len` is, with `len` elements; a dict yields its keys |
| `Json.Subscript` | src/agents/tdd_group/model_test_case_agent.py:57-60 | `d[key]`: the value, a `KeyError` for a missing key, and a failure on a non-dict |
| `Json.HasKey` | src/agents/model_group/model_group_agent.py:40 | `key in v`: key membership on a dict, and a `TypeError` exactly on values that support no `in` |

## Left out

- File and network I/O are outside the model: the files written, directories created, zip archives, HTTP plumbing, logging and `print`. Their failures are parameters (`fsError`, `Call.Raised`).
- `asyncio.create_task` is a second method: the model does not interleave the scheduled task with other requests.
- `uuid4`, `time.time()` and `datetime.now()` are parameters. The record's `start_time` and the status route's `uptime` are not kept.
- Template and file texts are not modelled: the Dart, gradle, XML and Kotlin bodies, the Jinja templates and the `analysis_options.yaml` text. Only their file names, media types and the bookkeeping are.
- The ADK objects are outside the model:
  - The runner, artifact service and LLM agents are not modelled. Leaf agents appear by name only.
  - `FunctionTool` wrapping is not modelled.
  - Whether a group's constructor raises is a parameter.
  - The module-level fallback group is modelled by value, not by object identity.
- `save_artifact`, `read_artifact`, `get_session_id` and the model-test agent's tool call are parameters. The artifact's bytes are not kept, and a read artifact's `Part` is approximated by a JSON value.
- `subprocess.run` of `dart analyze` and of `autopep8` is a parameter: the process result, or the command string.
- Temporary-file failures in the analysis tool other than writing a non-string are not modelled.
- `DartStaticAnalysis.AnalyzeRun`: the report is the dictionary's contents, not its `json.dumps` text.
- Python dictionaries are maps, so key order is not modelled.
- Display, `Json.Display`: Python's `str()` of a float, a list or a dict is shown by the fixed placeholders `<float>`, `<list>` and `<dict>`. The shortest round-trip float text and the `repr` of container elements are not modelled, and dict key order is not kept. `None`, booleans, integers and strings are printed as Python prints them. The members below inherit this gap.
- Submit, `JobServer.JobStore.Submit`: a float, list or dict `app_name` gives the folder name `App_<float>_v…` (or `<list>`, `<dict>`) instead of Python's `str()` of the value. `JobServer.SubmitStoresOneRecord`, `JobServer.ZipFileName` and `JobServer.ZipNameOfSubmittedJob` carry the same placeholder into the folder and archive names.
- CollectFieldLines, `JobServer.CollectFieldLines`: a float, list or dict field `name` or `type` is printed as its placeholder, not with `str()`. The same holds for `JobServer.FieldLinesAgree`.
- DartFileBookkeeping, `CodeGeneration.DartFileBookkeeping`: a float, list or dict `class_name` gives the state key `model_<float>` (or `<list>`, `<dict>`), not `model_` plus its `str()`.
- GenerateDartFile, `CodeGeneration.GenerateDartFile`: its state update uses the same placeholder key as `DartFileBookkeeping`.
- TestCase, `ModelTestCase.TestCase`: a float, list or dict model `name` gives `test_name` `<float>Test` (or `<list>Test`, `<dict>Test`), not its `str()` plus `Test`.
- Lower, `Text.Lower`: `str.lower` is modelled on ASCII only. Other characters are kept, so `É` stays `É`, and the length never changes, while Python lowers `İ` to two characters. Every lower-cased name inherits this: model and page paths, the package slug, the type table lookup and the Android test paths.
- SlugPointwise, `PackageSlug.SlugPointwise`: its claims that the slug keeps the name's length and that only ASCII capitals are lowered hold for the ASCII `Text.Lower`, not for Python's Unicode `str.lower`.
- WordEnd, `DartUtils.WordEnd`: `\w` is modelled as ASCII letters, digits and `_`. Python's `\w` also matches Unicode letters and digits, such as `é`.
- ListMatch, `DartUtils.ListMatch`: with the ASCII `\w`, `list[é]` does not match, so the model gives `dynamic` where Python gives `List<dynamic>`.
- DictMatch, `DartUtils.DictMatch`: with the ASCII `\w`, a key or value word with a non-ASCII letter does not match, so the model gives `dynamic` where Python gives a `Map<…>` type.
- ListType, `DartUtils.ListType`: proved for ASCII inner words only, because of the ASCII `\w`.
- DictType, `DartUtils.DictType`: proved for ASCII key and value words only, because of the ASCII `\w`.
- Generate and AndroidBuild, `JobServer.Generate`, `JobServer.AndroidBuild`: a file-system failure is a parameter that strikes at the first directory creation, before any entry of the spec or the app name is read. A failure of a later directory or file write is not modelled, so when it would meet a malformed entry or a non-string app name first, the model reports the file-system error instead.
- `Settings.GetAgentConfig`: each call builds a fresh dictionary; the model returns a value, with no object identity.
- `Text.ParseInt`: the `int()` grammar is approximated. Underscores between digits and Unicode digits are not accepted.
- `fix_imports` (fix_all_pep8.py:40-79) is not modelled because it rewrites imports with multi-line regular expressions.
- The `main()` functions of the two scripts (fix_whitespace.py:70-88, fix_all_pep8.py:193-227) are left out because they only glob, print and call the per-file functions.
- `scripts/fix_whitespace.py` and `scripts/fix_all_pep8.py` are identical copies and are covered by `WhitespaceFix` and `Pep8Fix`.
- `save_artifacts_to_filesystem` and `handle_app_generation` (src/api/app.py:111-254) are not reachable from the modelled routes: no route calls them.
- The ADK runner path of download_artifact (src/api/app.py:973-1066) cannot be reached. It is behind a check for a runner that no record holds, so the model answers that check's error.
- The root route and `start_server` (src/api/app.py:1219-1266 and 1667-1691) serve fixed text or start uvicorn.

## Findings

| source | as written | input that shows it | evidently intended | confidence | as-written member | corrected member |
|---|---|---|---|---|---|---|
| src/utils/dart_utils.py:22-31 | step 2 puts `_` before a leading digit, but the split at `_` in step 4 drops it again, so the class name starts with a digit and is not a Dart identifier | `"9a_b"` gives `"9aB"`, and sanitizing that again gives `"9ab"` | keep the `_` so the result is an identifier | not executed | `DartUtils.ClassNameNotIdempotentExample` | `DartUtils.KeepingPrefixIsIdentifier` |
| src/agents/security_group/dart_static_analysis_agent.py:195 | `all_passed` reads a `passed` key that no per-file result has, so it is true only when no file was analysed | one analysed `lib/main.dart` with exit code 0 and no issues gives `all_passed` false | `all_passed` true iff every analysed file's report succeeded | not executed | `DartStaticAnalysis.AllPassedIffNothingAnalysed` | `DartStaticAnalysis.IntendedAllPassedNoIssues` |
