/** The two MCP types the bridge produces, tool descriptors and text blocks, and the
    construction `Tool(**tool_data)` of a descriptor from decoded JSON. */
module Mcp {
  import opened Wrappers
  import opened Faults
  import opened Json
  import opened Http

  /** `TextContent(type="text", text=...)`: the only content kind produced. */
  datatype TextContent = TextContent(text: string)

  /** `Tool(name, description, inputSchema)`. */
  datatype Tool = Tool(name: string, description: Option<string>, inputSchema: seq<(string, Json)>)

  /** What a `call_tool` handler returns: the `data` member of a remote reply, passed on
      as it came, or a single text block answered locally. */
  datatype CallReply = Forwarded(data: Json) | Answer(block: TextContent)

  /** `{"type": "object", "properties": {}, "required": []}`. */
  const EMPTY_SCHEMA: seq<(string, Json)> :=
    [("type", JString("object")), ("properties", JObject([])), ("required", JArray([]))]

  /** `Tool(**tool_data)`: the data must be a dict with a string `name`, an optional
      string `description` and a dict `inputSchema`; other members are ignored. */
  function ToolFromJson(j: Json): (r: Result<Tool, Fault>)
    ensures r.Success? <==>
              j.JObject? &&
              Lookup(j.fields, "name").Some? && Lookup(j.fields, "name").value.JString? &&
              Lookup(j.fields, "inputSchema").Some? && Lookup(j.fields, "inputSchema").value.JObject? &&
              (Lookup(j.fields, "description").None? || Lookup(j.fields, "description").value.JNull? ||
               Lookup(j.fields, "description").value.JString?)
    ensures r.Success? ==>
              Lookup(j.fields, "name") == Some(JString(r.value.name)) &&
              Lookup(j.fields, "inputSchema") == Some(JObject(r.value.inputSchema))
    ensures r.Success? && r.value.description.Some? ==>
              Lookup(j.fields, "description") == Some(JString(r.value.description.value))
    ensures r.Success? && r.value.description.None? ==>
              Lookup(j.fields, "description").None? || Lookup(j.fields, "description") == Some(JNull)
    ensures !j.JObject? ==> r.Failure? && r.error.TypeError?
  {
    match j
    case JObject(fields) =>
      var name := Lookup(fields, "name");
      var description := Lookup(fields, "description");
      var schema := Lookup(fields, "inputSchema");
      if !(name.Some? && name.value.JString?) then Failure(ValidationError("Tool"))
      else if !(schema.Some? && schema.value.JObject?) then Failure(ValidationError("Tool"))
      else if description.Some? && description.value.JString? then
        Success(Tool(name.value.s, Some(description.value.s), schema.value.fields))
      else if description.None? || description.value.JNull? then
        Success(Tool(name.value.s, None, schema.value.fields))
      else Failure(ValidationError("Tool"))
    case _ => Failure(TypeError("argument after ** must be a mapping, not " + TypeName(j)))
  }

  /** `[Tool(**d) for d in data["tools"]]`, the list a remote `/tools` reply carries. */
  function ToolsField(data: Json): Result<seq<Tool>, Fault>
  {
    match Index(data, "tools")
    case Failure(f) => Failure(f)
    case Success(list) =>
      match Iterate(list)
      case Failure(f) => Failure(f)
      case Success(items) => MapAll(items, ToolFromJson)
  }

  /** The remote descriptors keep their number and their order: a `tools` array of
      descriptors that all construct yields exactly those tools, one per entry. */
  lemma ToolsInRemoteOrder(data: Json, items: seq<Json>)
    requires data.JObject? && Lookup(data.fields, "tools") == Some(JArray(items))
    ensures ToolsField(data).Success? <==> forall i :: 0 <= i < |items| ==> ToolFromJson(items[i]).Success?
    ensures ToolsField(data).Success? ==>
              |ToolsField(data).value| == |items| &&
              forall i :: 0 <= i < |items| ==> ToolsField(data).value[i] == ToolFromJson(items[i]).value
  {
    MapAllSucceeds(items, ToolFromJson);
  }

  /** `raise_for_status(); data = response.json(); [Tool(**d) for d in data["tools"]]`:
      the remote tool list, or the first exception on the way to it. */
  function FetchTools(o: HttpOutcome): Result<seq<Tool>, Fault>
  {
    match RaiseForStatusJson(o)
    case Failure(f) => Failure(f)
    case Success(data) => ToolsField(data)
  }

  /** A `/tools` reply that is accepted, decodes to a `tools` array, and whose entries all
      construct, yields exactly those tools in the remote order; any other reply fails. */
  lemma FetchToolsInOrder(o: HttpOutcome)
    ensures FetchTools(o).Success? ==>
              RaiseForStatusJson(o).Success? && RaiseForStatusJson(o).value.JObject? &&
              var list := Lookup(RaiseForStatusJson(o).value.fields, "tools");
              list.Some? &&
              (list.value.JArray? ==>
                 |FetchTools(o).value| == |list.value.items| &&
                 forall i :: 0 <= i < |list.value.items| ==>
                   Success(FetchTools(o).value[i]) == ToolFromJson(list.value.items[i]))
  {
    if FetchTools(o).Success? {
      var data := RaiseForStatusJson(o).value;
      var list := Lookup(data.fields, "tools").value;
      if list.JArray? {
        ToolsInRemoteOrder(data, list.items);
      }
    }
  }

  /** The names listed under `required` in a descriptor's schema. */
  function RequiredNames(t: Tool): seq<Json>
  {
    match Lookup(t.inputSchema, "required")
    case Some(JArray(names)) => names
    case _ => []
  }

  /** The names declared under `properties` in a descriptor's schema. */
  function PropertyNames(t: Tool): set<string>
  {
    match Lookup(t.inputSchema, "properties")
    case Some(JObject(props)) => Keys(props)
    case _ => {}
  }

  /** Every required argument of the descriptor is a declared property. */
  predicate RequiredDeclared(t: Tool)
  {
    forall i :: 0 <= i < |RequiredNames(t)| ==>
      RequiredNames(t)[i].JString? && RequiredNames(t)[i].s in PropertyNames(t)
  }

  predicate DistinctNames(tools: seq<Tool>)
  {
    forall i, j :: 0 <= i < j < |tools| ==> tools[i].name != tools[j].name
  }

  /** A synthetic descriptor that takes no arguments. */
  function SyntheticTool(name: string, description: string): (t: Tool)
    ensures t.name == name && t.description == Some(description)
    ensures Lookup(t.inputSchema, "type") == Some(JString("object"))
    ensures PropertyNames(t) == {} && RequiredNames(t) == [] && RequiredDeclared(t)
  {
    Tool(name, Some(description), EMPTY_SCHEMA)
  }
}
