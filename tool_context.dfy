/** The context an agent tool receives: the session state, a dictionary the
    tools read and extend, and the artifacts saved in the session. The
    artifact service itself is not modelled: whether a save succeeds, and
    the version number it reports, are given to each save. */
module Tools {
  import opened Outcomes
  import opened Json

  /** A saved artifact: its file name and media type. The bytes are
      template text and are not kept. */
  datatype Artifact = Artifact(filename: string, mimeType: string)

  function Names(artifacts: seq<Artifact>): (r: seq<string>)
    ensures |r| == |artifacts| && forall k :: 0 <= k < |r| ==> r[k] == artifacts[k].filename
  {
    seq(|artifacts|, k requires 0 <= k < |artifacts| => artifacts[k].filename)
  }

  class ToolContext {
    /** `tool_context.state` */
    var state: map<string, Json>
    /** the artifacts saved through `tool_context.save_artifact`, oldest first */
    var artifacts: seq<Artifact>

    constructor (initial: map<string, Json>)
      ensures state == initial && artifacts == []
    {
      state := initial;
      artifacts := [];
    }

    /** `save_artifact(filename, artifact)`: on success the artifact is
        appended and the version the service reports is returned. */
    method SaveArtifact(filename: string, mimeType: string, outcome: Call<int>) returns (r: Call<int>)
      modifies this
      ensures r == outcome && state == old(state)
      ensures artifacts == if outcome.Returned? then old(artifacts) + [Artifact(filename, mimeType)] else old(artifacts)
    {
      r := outcome;
      if outcome.Returned? {
        artifacts := artifacts + [Artifact(filename, mimeType)];
      }
    }

    /** `list_artifacts()`: the saved file names. */
    function ListArtifacts(): (r: seq<string>)
      reads this
      ensures forall k :: 0 <= k < |artifacts| ==> artifacts[k].filename in r
      ensures forall x :: x in r ==> exists k :: 0 <= k < |artifacts| && artifacts[k].filename == x
    {
      Names(artifacts)
    }
  }
}
