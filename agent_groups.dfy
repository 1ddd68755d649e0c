/** The `register_*` functions of the model, webview, API, controller,
    security and TDD groups. Each builds its group from a fixed list of leaf
    agents, looks up one key in the app spec without using the answer, and
    falls back to the group built at import time when anything raises. The
    constructor of a group is outside the model: whether it raises is a
    parameter. */
module AgentGroups {
  import opened Outcomes
  import opened Json
  import opened AgentTree

  // The leaf agents the groups are built from.
  const UserModelAgent := Leaf("UserModelAgent")
  const HomePageViewAgent := Leaf("HomePageViewAgent")
  const UserApiRoutesAgent := Leaf("UserAPIRoutesAgent")
  const UserControllerAgent := Leaf("UserControllerAgent")
  const DartStaticAnalysisAgent := Leaf("DartStaticAnalysisAgent")
  const ModelTestCaseAgent := Leaf("ModelTestCaseAgent")
  const AndroidTestAgent := Leaf("AndroidTestAgent")

  // The groups built at import time, returned when registration raises.
  const ModelGroupAgent := Group(Parallel, "ModelGroupAgent", "모델 파일 생성 작업을 병렬로 수행하는 에이전트 그룹", [UserModelAgent])
  const WebviewGroupAgent := Group(Parallel, "WebviewGroupAgent", "웹뷰 파일 생성 작업을 병렬로 수행하는 에이전트 그룹", [HomePageViewAgent])
  const ApiGroupAgent := Group(Parallel, "APIGroupAgent", "API 파일 생성 작업을 병렬로 수행하는 에이전트 그룹", [UserApiRoutesAgent])
  const ControllerGroupAgent := Group(Llm, "ControllerGroupAgent", "컨트롤러 파일 생성 작업을 병렬로 수행하는 에이전트 그룹", [UserControllerAgent])
  const SecurityGroupAgent := Group(Llm, "SecurityGroupAgent", "보안 검사 작업을 순차적으로 수행하는 에이전트 그룹", [DartStaticAnalysisAgent])
  const TddGroupAgent := Group(Llm, "TDDGroupAgent", "TDD 작업을 순차적으로 수행하는 에이전트 그룹", [ModelTestCaseAgent, AndroidTestAgent])

  /** The common shape of registration: `key in app_spec` raises on a value
      that is not a container, the constructor may raise, and either
      exception yields the import-time group; otherwise the freshly built
      group is returned. The branch taken on the key is empty. */
  function Registered(appSpec: Json, key: string, raised: Option<string>, built: AgentNode, fallback: AgentNode): (g: AgentNode)
    ensures g == built <== HasKey(appSpec, key).Ok? && raised.None?
    ensures g == fallback <== HasKey(appSpec, key).Err? || raised.Some?
  {
    match HasKey(appSpec, key)
    case Err(_) => fallback
    case Ok(_) => if raised.Some? then fallback else built
  }

  /** `register_model_agents`: one model agent however many models the spec
      declares, in a parallel group; the same tree on every path. */
  function RegisterModelAgents(appSpec: Json, raised: Option<string>): (g: AgentNode)
    ensures g == ModelGroupAgent
    ensures g.Group? && g.kind == Parallel && g.name == "ModelGroupAgent" && ChildNames(g) == ["UserModelAgent"]
  {
    Registered(appSpec, "models", raised,
      Group(Parallel, "ModelGroupAgent", "모델 파일 생성 작업을 병렬로 수행하는 에이전트 그룹", [UserModelAgent]),
      ModelGroupAgent)
  }

  /** `register_webview_agents`: one page agent however many pages the spec
      declares, in a parallel group. */
  function RegisterWebviewAgents(appSpec: Json, raised: Option<string>): (g: AgentNode)
    ensures g == WebviewGroupAgent
    ensures g.Group? && g.kind == Parallel && g.name == "WebviewGroupAgent" && ChildNames(g) == ["HomePageViewAgent"]
  {
    Registered(appSpec, "pages", raised,
      Group(Parallel, "WebviewGroupAgent", "웹뷰 파일 생성 작업을 병렬로 수행하는 에이전트 그룹", [HomePageViewAgent]),
      WebviewGroupAgent)
  }

  /** `register_api_agents`: one routes agent in a parallel group. */
  function RegisterApiAgents(appSpec: Json, raised: Option<string>): (g: AgentNode)
    ensures g == ApiGroupAgent
    ensures g.Group? && g.kind == Parallel && g.name == "APIGroupAgent" && ChildNames(g) == ["UserAPIRoutesAgent"]
  {
    Registered(appSpec, "api_endpoints", raised,
      Group(Parallel, "APIGroupAgent", "API 파일 생성 작업을 병렬로 수행하는 에이전트 그룹", [UserApiRoutesAgent]),
      ApiGroupAgent)
  }

  /** `register_controller_agents`: one controller agent, in a plain `Agent`
      group although its description speaks of parallel work. */
  function RegisterControllerAgents(appSpec: Json, raised: Option<string>): (g: AgentNode)
    ensures g == ControllerGroupAgent
    ensures g.Group? && g.kind == Llm && g.name == "ControllerGroupAgent" && ChildNames(g) == ["UserControllerAgent"]
  {
    Registered(appSpec, "controllers", raised,
      Group(Llm, "ControllerGroupAgent", "컨트롤러 파일 생성 작업을 병렬로 수행하는 에이전트 그룹", [UserControllerAgent]),
      ControllerGroupAgent)
  }

  /** `register_security_agents`: the static-analysis agent in a plain group. */
  function RegisterSecurityAgents(appSpec: Json, raised: Option<string>): (g: AgentNode)
    ensures g == SecurityGroupAgent
    ensures g.Group? && g.kind == Llm && g.name == "SecurityGroupAgent" && ChildNames(g) == ["DartStaticAnalysisAgent"]
  {
    Registered(appSpec, "security_checks", raised,
      Group(Llm, "SecurityGroupAgent", "보안 검사 작업을 순차적으로 수행하는 에이전트 그룹", [DartStaticAnalysisAgent]),
      SecurityGroupAgent)
  }

  /** `register_tdd_agents`: the model-test agent, then the Android-test
      agent, in a plain group. */
  function RegisterTddAgents(appSpec: Json, raised: Option<string>): (g: AgentNode)
    ensures g == TddGroupAgent
    ensures g.Group? && g.kind == Llm && g.name == "TDDGroupAgent" && ChildNames(g) == ["ModelTestCaseAgent", "AndroidTestAgent"]
  {
    Registered(appSpec, "tests", raised,
      Group(Llm, "TDDGroupAgent", "TDD 작업을 순차적으로 수행하는 에이전트 그룹", [ModelTestCaseAgent, AndroidTestAgent]),
      TddGroupAgent)
  }
}
