/** What a worker and its language model see of a tool: name, description and input schema. */
module Capabilities {

  /** A JSON schema, kept as its serialized text; its structure is not interpreted here. */
  datatype Schema = Schema(json: string)

  datatype ToolSpec = ToolSpec(name: string, description: string, inputSchema: Schema)

  /** The tools' descriptions, in tool order. */
  function Descriptions(tools: seq<ToolSpec>): (ds: seq<string>)
    ensures |ds| == |tools|
    ensures forall i :: 0 <= i < |tools| ==> ds[i] == tools[i].description
  {
    seq(|tools|, i requires 0 <= i < |tools| => tools[i].description)
  }
}
