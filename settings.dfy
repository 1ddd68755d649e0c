/** The per-agent model configuration of the project settings: a base
    dictionary overwritten key by key with the agent type's own entries. The
    process environment the settings read at import time is a parameter. */
module Settings {
  import opened Json

  const FallbackModel := "gemini-1.5-flash"
  const DefaultType := "default"

  /** `os.getenv("DEFAULT_MODEL", "gemini-1.5-flash")` */
  function DefaultModel(environ: map<string, string>): (m: string)
    ensures "DEFAULT_MODEL" in environ ==> m == environ["DEFAULT_MODEL"]
    ensures "DEFAULT_MODEL" !in environ ==> m == FallbackModel
  {
    if "DEFAULT_MODEL" in environ then environ["DEFAULT_MODEL"] else FallbackModel
  }

  type Config = map<string, Json>

  /** The dictionary every call starts from. */
  function BaseConfig(model: string): Config {
    map["model" := JStr(model), "temperature" := JFloat(0.2)]
  }

  /** `agent_specific_config`: each known agent type's entries, in order. */
  const AgentSpecificConfig: map<string, seq<(string, Json)>> := map[
    "model_agent" := [("temperature", JFloat(0.1))],
    "webview_agent" := [("temperature", JFloat(0.3))],
    "tdd_agent" := [("temperature", JFloat(0.2))],
    "security_agent" := [("temperature", JFloat(0.1))],
    DefaultType := [("temperature", JFloat(0.2))]
  ]

  /** The agent type whose entries are merged: an unknown type falls back to
      `"default"`. */
  function Resolved(agentType: string): (t: string)
    ensures t in AgentSpecificConfig
    ensures agentType in AgentSpecificConfig ==> t == agentType
  {
    if agentType in AgentSpecificConfig then agentType else DefaultType
  }

  /** Each `(key, value)` written over the dictionary in turn. */
  function Merged(config: Config, items: seq<(string, Json)>): (r: Config)
    ensures r.Keys == config.Keys + set k | 0 <= k < |items| :: items[k].0
    ensures forall key :: key in config && (forall k :: 0 <= k < |items| ==> items[k].0 != key) ==> r[key] == config[key]
  {
    if items == [] then config
    else
      var init := items[..|items| - 1];
      var front := Merged(config, init);
      var last := items[|items| - 1];
      assert forall k :: 0 <= k < |items| - 1 ==> init[k] == items[k];
      assert (set k | 0 <= k < |items| :: items[k].0)
          == (set k | 0 <= k < |init| :: init[k].0) + {last.0};
      front[last.0 := last.1]
  }

  /** What `get_agent_config(agent_type)` returns. */
  function AgentConfig(agentType: string, model: string): Config {
    Merged(BaseConfig(model), AgentSpecificConfig[Resolved(agentType)])
  }

  /** The temperatures the settings give each agent type. */
  function Temperature(agentType: string): real {
    if agentType == "model_agent" || agentType == "security_agent" then 0.1
    else if agentType == "webview_agent" then 0.3
    else 0.2
  }

  /** The configuration has exactly the keys `model` and `temperature`; the
      model is the default model and the temperature is the agent type's. */
  lemma AgentConfigContents(agentType: string, model: string)
    ensures AgentConfig(agentType, model).Keys == {"model", "temperature"}
    ensures AgentConfig(agentType, model)["model"] == JStr(model)
    ensures AgentConfig(agentType, model)["temperature"] == JFloat(Temperature(agentType))
  {
    var items := AgentSpecificConfig[Resolved(agentType)];
    assert |items| == 1 && items[0].0 == "temperature";
    assert items[..0] == [];
    assert (set k | 0 <= k < |items| :: items[k].0) == {"temperature"};
  }

  /** An agent type the settings do not know is configured as `"default"`. */
  lemma UnknownTypeIsDefault(agentType: string, model: string)
    requires agentType !in AgentSpecificConfig
    ensures AgentConfig(agentType, model) == AgentConfig(DefaultType, model)
  {
  }

  /** `get_agent_config(agent_type)`: the loop writing the agent type's
      entries into the base dictionary. */
  method GetAgentConfig(agentType: string, environ: map<string, string>) returns (config: Config)
    ensures config == AgentConfig(agentType, DefaultModel(environ))
    ensures config.Keys == {"model", "temperature"}
    ensures config["temperature"] == JFloat(Temperature(agentType))
  {
    config := BaseConfig(DefaultModel(environ));
    var items := AgentSpecificConfig[Resolved(agentType)];
    for i := 0 to |items|
      invariant config == Merged(BaseConfig(DefaultModel(environ)), items[..i])
    {
      assert items[..i + 1][..i] == items[..i];
      config := config[items[i].0 := items[i].1];
    }
    assert items[..|items|] == items;
    AgentConfigContents(agentType, DefaultModel(environ));
  }
}
