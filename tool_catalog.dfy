/**
  The tool catalog of `MCPOpenAIClient.get_mcp_tools`: every MCP tool
  descriptor becomes one function-calling entry for the chat model, in the
  order `list_tools` reported them.
*/
module ToolCatalog {
  import opened McpTypes

  /** The entry kind the chat model expects for a callable tool. */
  const FunctionKind: string := "function"

  /** One descriptor as `{"type": "function", "function": {name, description, parameters}}`. */
  function ToolEntry(tool: ToolDescriptor): FunctionEntry {
    FunctionEntry(FunctionKind, FunctionSpec(tool.name, tool.description, tool.inputSchema))
  }

  /** The list comprehension over `tools_result.tools`. */
  function ToOpenAiTools(tools: seq<ToolDescriptor>): (entries: seq<FunctionEntry>)
    ensures |entries| == |tools|
    ensures forall i :: 0 <= i < |tools| ==>
      && entries[i].kind == "function"
      && entries[i].func.name == tools[i].name
      && entries[i].func.description == tools[i].description
      && entries[i].func.parameters == tools[i].inputSchema
  {
    if tools == [] then [] else [ToolEntry(tools[0])] + ToOpenAiTools(tools[1..])
  }

  /** Reads a descriptor back out of an entry. */
  function EntryDescriptor(entry: FunctionEntry): ToolDescriptor {
    ToolDescriptor(entry.func.name, entry.func.description, entry.func.parameters)
  }

  function FromOpenAiTools(entries: seq<FunctionEntry>): (tools: seq<ToolDescriptor>)
    ensures |tools| == |entries|
  {
    if entries == [] then [] else [EntryDescriptor(entries[0])] + FromOpenAiTools(entries[1..])
  }

  /** The conversion loses nothing: the descriptors, in order, can be read back from the catalog. */
  lemma {:induction false} CatalogRoundTrip(tools: seq<ToolDescriptor>)
    ensures FromOpenAiTools(ToOpenAiTools(tools)) == tools
  {
    if tools != [] {
      CatalogRoundTrip(tools[1..]);
      assert ToOpenAiTools(tools)[1..] == ToOpenAiTools(tools[1..]);
    }
  }

  /** The catalog of a concatenation is the concatenation of the catalogs: order is kept. */
  lemma {:induction false} CatalogOfConcat(a: seq<ToolDescriptor>, b: seq<ToolDescriptor>)
    ensures ToOpenAiTools(a + b) == ToOpenAiTools(a) + ToOpenAiTools(b)
  {
    if a != [] {
      assert (a + b)[1..] == a[1..] + b;
      CatalogOfConcat(a[1..], b);
    } else {
      assert a + b == b;
    }
  }
}
