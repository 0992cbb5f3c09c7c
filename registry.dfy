/**
 * The tool registry: the fixed, ordered list of tool descriptors that the
 * "list tools" request returns, the names the call dispatcher recognises,
 * and the `{name, description}` projection shown on the root endpoint.
 */
module Registry {
  import opened Wrappers

  /** One entry of an input schema's `properties` object (kept in declaration order). */
  datatype PropertySchema = PropertySchema(
    name: string,
    kind: string,                    // the schema's `type`
    enumValues: Option<seq<string>>, // the schema's `enum`, when it has one
    description: string)

  datatype InputSchema = InputSchema(kind: string, properties: seq<PropertySchema>, required: seq<string>)

  datatype ToolDescriptor = ToolDescriptor(name: string, description: string, inputSchema: InputSchema)

  /** What the root endpoint shows of a tool. */
  datatype ToolSummary = ToolSummary(name: string, description: string)

  /** The reply to a "list tools" request: `{ tools: TOOLS }`. */
  datatype ListToolsResult = ListToolsResult(tools: seq<ToolDescriptor>)

  /** The tools the dispatcher has a case for. */
  datatype ToolName = CreateTask | QueryProjectStatus | GetCodeContext

  /** The cases of the `query_project_status` switch. */
  datatype QueryType = RecentChanges | ActiveFeatures | SystemHealth | TodoList

  const TOOLS: seq<ToolDescriptor> := [
    ToolDescriptor(
      "create_task",
      "Create a development task for Manus AI to execute. Use this when you need to build features, fix bugs, or make changes to the BluebirdX codebase.",
      InputSchema("object", [
        PropertySchema("task_description", "string", None,
          "Clear description of what needs to be built or fixed. Be specific about the feature, bug, or change required."),
        PropertySchema("priority", "string", Some(["low", "medium", "high", "urgent"]),
          "Priority level of the task"),
        PropertySchema("context", "string", None,
          "Additional context about why this task is needed or what problem it solves")
      ], ["task_description"])),
    ToolDescriptor(
      "query_project_status",
      "Check the current status of the BluebirdX project, including recent changes, active features, and system health.",
      InputSchema("object", [
        PropertySchema("query_type", "string", Some(["recent_changes", "active_features", "system_health", "todo_list"]),
          "Type of status information to retrieve")
      ], ["query_type"])),
    ToolDescriptor(
      "get_code_context",
      "Get information about specific code files, components, or functions in the BluebirdX project.",
      InputSchema("object", [
        PropertySchema("file_path", "string", None,
          "Path to the file or component to analyze (e.g., 'client/src/pages/Home.tsx')"),
        PropertySchema("query", "string", None,
          "Specific question about the code or what you're looking for")
      ], ["file_path"]))
  ]

  function NameOf(t: ToolName): string {
    match t
    case CreateTask => "create_task"
    case QueryProjectStatus => "query_project_status"
    case GetCodeContext => "get_code_context"
  }

  function QueryTypeName(q: QueryType): string {
    match q
    case RecentChanges => "recent_changes"
    case ActiveFeatures => "active_features"
    case SystemHealth => "system_health"
    case TodoList => "todo_list"
  }

  /** The names of a list of tools, in order. */
  function Names(tools: seq<ToolDescriptor>): (r: seq<string>)
    ensures |r| == |tools|
    ensures forall i :: 0 <= i < |tools| ==> r[i] == tools[i].name
  {
    if tools == [] then [] else [tools[0].name] + Names(tools[1..])
  }

  /** The enumerated values the registry declares for `query_type`. */
  function QueryTypeEnum(): seq<string> {
    TOOLS[1].inputSchema.properties[0].enumValues.value
  }

  lemma RegisteredNames()
    ensures Names(TOOLS) == ["create_task", "query_project_status", "get_code_context"]
  {
  }

  /**
   * The `switch (name)` of the call dispatcher: a name has a case exactly when
   * the registry lists a tool of that name.
   */
  function ParseToolName(s: string): (r: Option<ToolName>)
    ensures r.Some? <==> s in Names(TOOLS)
    ensures r.Some? ==> NameOf(r.value) == s
  {
    RegisteredNames();
    if s == "create_task" then Some(CreateTask)
    else if s == "query_project_status" then Some(QueryProjectStatus)
    else if s == "get_code_context" then Some(GetCodeContext)
    else None
  }

  /**
   * The `switch (query_type)` of `query_project_status`, a strict comparison:
   * a value has a case exactly when it is one of the values the registry
   * declares for `query_type`. A missing value has none.
   */
  function ParseQueryType(v: Option<string>): (r: Option<QueryType>)
    ensures r.Some? <==> v.Some? && v.value in QueryTypeEnum()
    ensures r.Some? ==> QueryTypeName(r.value) == v.value
  {
    if v == Some("recent_changes") then Some(RecentChanges)
    else if v == Some("active_features") then Some(ActiveFeatures)
    else if v == Some("system_health") then Some(SystemHealth)
    else if v == Some("todo_list") then Some(TodoList)
    else None
  }

  lemma {:induction false} ToolNameRoundTrip(t: ToolName, s: string)
    ensures ParseToolName(NameOf(t)) == Some(t)
    ensures ParseToolName(s) == Some(t) ==> s == NameOf(t)
  {
    match t
    case CreateTask =>
    case QueryProjectStatus =>
    case GetCodeContext =>
  }

  lemma QueryTypeRoundTrip(q: QueryType)
    ensures ParseQueryType(Some(QueryTypeName(q))) == Some(q)
  {
  }

  /** The "list tools" handler: the registry, unchanged and in order. */
  function ListTools(): (r: ListToolsResult)
    ensures r.tools == TOOLS
    ensures Names(r.tools) == ["create_task", "query_project_status", "get_code_context"]
  {
    RegisteredNames();
    ListToolsResult(TOOLS)
  }

  /** `tools.map(t => ({ name: t.name, description: t.description }))`. */
  function Summaries(tools: seq<ToolDescriptor>): (r: seq<ToolSummary>)
    ensures |r| == |tools|
    ensures forall i :: 0 <= i < |tools| ==> r[i] == ToolSummary(tools[i].name, tools[i].description)
  {
    if tools == [] then [] else [ToolSummary(tools[0].name, tools[0].description)] + Summaries(tools[1..])
  }

  predicate Distinct(s: seq<string>) {
    forall i, j :: 0 <= i < j < |s| ==> s[i] != s[j]
  }

  /** Every field a schema requires is one of its declared properties. */
  predicate RequiredDeclared(schema: InputSchema) {
    forall r :: r in schema.required ==> exists p :: p in schema.properties && p.name == r
  }

  /** Tool names are unique. */
  lemma NamesDistinct()
    ensures Distinct(Names(TOOLS))
  {
    RegisteredNames();
  }

  /** Each schema's required fields are among its declared properties. */
  lemma RequiredFieldsDeclared()
    ensures forall t :: t in TOOLS ==> RequiredDeclared(t.inputSchema)
  {
    assert TOOLS[0].inputSchema.properties[0].name == "task_description";
    assert TOOLS[1].inputSchema.properties[0].name == "query_type";
    assert TOOLS[2].inputSchema.properties[0].name == "file_path";
  }

  /** The `query_type` enum lists exactly the cases of the status switch. */
  lemma QueryTypeEnumMatchesCases()
    ensures forall q: QueryType :: QueryTypeName(q) in QueryTypeEnum()
    ensures forall v :: v in QueryTypeEnum() ==> ParseQueryType(Some(v)).Some?
  {
  }
}
