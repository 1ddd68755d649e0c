/** The generator tree the group files assemble from ADK agents. Only the
    shape is kept: the kind of each group, its name, its description and its
    children in order. The leaf agents (`LlmAgent`s with a model, an
    instruction and tools) are identified by name. */
module AgentTree {
  /** `ParallelAgent` runs its sub-agents concurrently; `Agent`, the ADK
      alias of `LlmAgent`, hands over to its sub-agents under a model. */
  datatype Kind = Parallel | Llm

  datatype AgentNode =
    | Group(kind: Kind, name: string, description: string, children: seq<AgentNode>)
    | Leaf(name: string)

  /** The names of a group's sub-agents, in order. */
  function ChildNames(g: AgentNode): (r: seq<string>)
    requires g.Group?
    ensures |r| == |g.children| && forall k :: 0 <= k < |r| ==> r[k] == g.children[k].name
  {
    seq(|g.children|, k requires 0 <= k < |g.children| => g.children[k].name)
  }
}
