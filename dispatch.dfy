/**
 * The call-tool handler: a switch on the tool name that builds one result
 * record per tool, turns an unknown name into a thrown error, and catches
 * every thrown error into an error envelope. JSON.stringify of the result
 * records is not modelled: a success block carries the record itself.
 */
module Dispatch {
  import opened Wrappers
  import opened Registry
  import NumberText

  /** The argument bag of a call; `None` for the whole bag is an absent `arguments`. */
  type Args = map<string, string>

  /** The two clock readings the handlers take: `Date.now()` and `new Date().toISOString()`. */
  datatype Clock = Clock(millis: int, iso: string)

  datatype TaskResponse = TaskResponse(
    taskId: string,
    status: string,
    message: string,
    priority: string,
    estimatedTime: string,
    nextSteps: seq<string>)

  /** `statusInfo`; `NoStatus` is the empty object it starts as. */
  datatype StatusInfo =
    | RecentChangesStatus(lastUpdated: string, recentFeatures: seq<string>, lastDeployment: string)
    | ActiveFeaturesStatus(completed: seq<string>, inProgress: seq<string>, planned: seq<string>)
    | SystemHealthStatus(status: string, devServer: string, database: string, apiEndpoints: string, lastCheck: string)
    | TodoListStatus(highPriority: seq<string>, mediumPriority: seq<string>, lowPriority: seq<string>)
    | NoStatus

  /** `file` is `None` when `file_path` is undefined: JSON.stringify then drops the key. */
  datatype CodeContext = CodeContext(file: Option<string>, query: string, analysis: string, note: string, suggestion: string)

  datatype ToolResult =
    | TaskCreated(task: TaskResponse)
    | ProjectStatus(info: StatusInfo)
    | CodeContextReport(context: CodeContext)

  /** A content block's text: the stringified result record, or plain error text. */
  datatype Payload = Json(result: ToolResult) | Text(text: string)

  datatype ContentBlock = ContentBlock(kind: string, payload: Payload)

  /** `isError` false stands for the field being absent, as in every success reply. */
  datatype Envelope = Envelope(content: seq<ContentBlock>, isError: bool)

  /** What the `try` block can throw. */
  datatype ThrownError =
    | UnknownTool(name: string)
    | ReadOfUndefined(property: string)       // `args.p` with `args` undefined
    | DestructureOfUndefined(property: string) // `const { p } = args` with `args` undefined

  /** `error.message`; the wording of the two TypeErrors is the JavaScript engine's (V8). */
  function Message(f: ThrownError): (m: string)
    ensures f.UnknownTool? ==> m == "Unknown tool: " + f.name
    ensures !f.UnknownTool? ==> IsSubstring("'" + f.property + "'", m)
  {
    match f
    case UnknownTool(name) => "Unknown tool: " + name
    case ReadOfUndefined(p) =>
      var before, quoted, after := "Cannot read properties of undefined (reading ", "'" + p + "'", ")";
      InfixOccurs(before, quoted, after);
      before + quoted + after
    case DestructureOfUndefined(p) =>
      var before, quoted, after := "Cannot destructure property ", "'" + p + "'", " of 'args' as it is undefined.";
      InfixOccurs(before, quoted, after);
      before + quoted + after
  }

  function Lookup(args: Args, key: string): Option<string> {
    if key in args then Some(args[key]) else None
  }

  /** JavaScript truthiness of a string-or-undefined value. */
  predicate Truthy(v: Option<string>) {
    v.Some? && v.value != ""
  }

  /** What `${v}` yields in a template string. */
  function Interpolated(v: Option<string>): string {
    match v
    case Some(s) => s
    case None => "undefined"
  }

  predicate OccursAt(needle: string, haystack: string, k: int) {
    0 <= k <= |haystack| - |needle| && haystack[k..k + |needle|] == needle
  }

  predicate IsSubstring(needle: string, haystack: string) {
    exists k | 0 <= k <= |haystack| :: OccursAt(needle, haystack, k)
  }

  // ---- create_task ----------------------------------------------------------

  const TASK_ID_PREFIX := "task_"
  const CREATED_PREFIX := "Task created successfully: "
  const DEFAULT_PRIORITY := "medium"
  const ESTIMATED_TIME := "Task will be processed by Manus AI developer"
  const NEXT_STEPS := [
    "Manus AI will analyze the request",
    "Code changes will be implemented",
    "Changes will be tested",
    "Updates will be deployed"
  ]

  /**
   * `task_${Date.now()}`: the prefix, then the clock's integer text (a `-`
   * and the digits for a reading before 1970).
   */
  function TaskId(millis: int): (id: string)
    ensures |id| > |TASK_ID_PREFIX| && id[..|TASK_ID_PREFIX|] == TASK_ID_PREFIX
    ensures millis >= 0 ==> id[|TASK_ID_PREFIX|..] == NumberText.Decimal(millis)
    ensures millis < 0 ==> id[|TASK_ID_PREFIX|..] == "-" + NumberText.Decimal(-millis)
  {
    TASK_ID_PREFIX + NumberText.IntText(millis)
  }

  /** Recovers the clock reading from a task id; `None` for anything that is not one. */
  function ParseTaskId(s: string): Option<int> {
    if |s| >= |TASK_ID_PREFIX| && s[..|TASK_ID_PREFIX|] == TASK_ID_PREFIX
    then NumberText.ParseInt(s[|TASK_ID_PREFIX|..])
    else None
  }

  lemma TaskIdRoundTrip(millis: int)
    ensures ParseTaskId(TaskId(millis)) == Some(millis)
  {
    var s := TaskId(millis);
    assert s[|TASK_ID_PREFIX|..] == NumberText.IntText(millis);
    NumberText.IntTextRoundTrip(millis);
  }

  /** Tasks created at different clock readings get different ids. */
  lemma TaskIdInjective(a: int, b: int)
    requires TaskId(a) == TaskId(b)
    ensures a == b
  {
    TaskIdRoundTrip(a);
    TaskIdRoundTrip(b);
  }

  lemma EndsWith(prefix: string, s: string)
    ensures IsSubstring(s, prefix + s)
  {
    assert (prefix + s)[|prefix|..|prefix| + |s|] == s;
    assert OccursAt(s, prefix + s, |prefix|);
  }

  lemma InfixOccurs(before: string, s: string, after: string)
    ensures IsSubstring(s, before + s + after)
  {
    var h := before + s + after;
    assert h[|before|..|before| + |s|] == s;
    assert OccursAt(s, h, |before|);
  }

  lemma QuotedInMessage(d: string)
    ensures IsSubstring("\"" + d + "\"", CREATED_PREFIX + "\"" + d + "\"")
  {
    var h := CREATED_PREFIX + "\"" + d + "\"";
    assert h[|CREATED_PREFIX|..|CREATED_PREFIX| + |d| + 2] == "\"" + d + "\"";
    assert OccursAt("\"" + d + "\"", h, |CREATED_PREFIX|);
  }

  /** The `create_task` case, once `args` is known to be defined. */
  function HandleCreateTask(args: Args, millis: int): (r: TaskResponse)
    ensures r.status == "created"
    ensures r.taskId == TASK_ID_PREFIX + NumberText.IntText(millis)
    ensures ParseTaskId(r.taskId) == Some(millis)
    ensures IsSubstring("\"" + Interpolated(Lookup(args, "task_description")) + "\"", r.message)
    ensures Truthy(Lookup(args, "priority")) ==> r.priority == args["priority"]
    ensures !Truthy(Lookup(args, "priority")) ==> r.priority == DEFAULT_PRIORITY
  {
    var description := Interpolated(Lookup(args, "task_description"));
    TaskIdRoundTrip(millis);
    QuotedInMessage(description);
    TaskResponse(
      TaskId(millis),
      "created",
      CREATED_PREFIX + "\"" + description + "\"",
      if Truthy(Lookup(args, "priority")) then args["priority"] else DEFAULT_PRIORITY,
      ESTIMATED_TIME,
      NEXT_STEPS)
  }

  // ---- query_project_status -------------------------------------------------

  const RECENT_FEATURES := [
    "Voice booking interface with Leiah AI",
    "Interactive hero orb with vehicle selection",
    "Tinder-style driver swipe cards",
    "Real-time chat interface"
  ]
  const COMPLETED_FEATURES := [
    "Hero orb with animations",
    "AI chat interface",
    "Driver swipe cards",
    "Booking form",
    "Authentication system"
  ]
  const IN_PROGRESS_FEATURES := [
    "Supabase database integration",
    "MCP server connections",
    "Payment processing"
  ]
  const PLANNED_FEATURES := [
    "Real-time notifications",
    "SMS confirmations",
    "Advanced analytics"
  ]
  const HIGH_PRIORITY_TODOS := [
    "Complete Supabase MCP integration",
    "Connect Manus MCP to Leiah",
    "Test end-to-end booking flow"
  ]
  const MEDIUM_PRIORITY_TODOS := [
    "Add payment processing",
    "Implement notifications",
    "Build admin dashboard features"
  ]
  const LOW_PRIORITY_TODOS := [
    "Performance optimization",
    "Additional animations",
    "Extended analytics"
  ]

  /** The `query_project_status` case, given the destructured `query_type`. */
  function HandleQueryProjectStatus(queryType: Option<string>, iso: string): (r: StatusInfo)
    ensures r.NoStatus? <==> ParseQueryType(queryType).None?
    ensures r.NoStatus? <==> queryType.None? || queryType.value !in QueryTypeEnum()
    ensures queryType == Some("system_health") ==> r.SystemHealthStatus? && r.status == "healthy" && r.lastCheck == iso
    ensures queryType == Some("recent_changes") ==> r.RecentChangesStatus? && r.lastUpdated == iso
    ensures queryType == Some("active_features") ==> r.ActiveFeaturesStatus?
    ensures queryType == Some("todo_list") ==> r.TodoListStatus?
  {
    match ParseQueryType(queryType)
    case Some(RecentChanges) =>
      RecentChangesStatus(iso, RECENT_FEATURES, "Active development")
    case Some(ActiveFeatures) =>
      ActiveFeaturesStatus(COMPLETED_FEATURES, IN_PROGRESS_FEATURES, PLANNED_FEATURES)
    case Some(SystemHealth) =>
      SystemHealthStatus("healthy", "running", "connected", "operational", iso)
    case Some(TodoList) =>
      TodoListStatus(HIGH_PRIORITY_TODOS, MEDIUM_PRIORITY_TODOS, LOW_PRIORITY_TODOS)
    case None =>
      NoStatus
  }

  // ---- get_code_context -----------------------------------------------------

  const DEFAULT_QUERY := "General file information"
  const ANALYSIS_PREFIX := "Code context for "
  const CODE_CONTEXT_NOTE := "This is a simplified response. In production, this would analyze the actual file content."
  const CODE_CONTEXT_SUGGESTION := "Use this tool to understand code structure before making changes."

  /** The `get_code_context` case, once `args` is known to be defined. */
  function HandleGetCodeContext(args: Args): (r: CodeContext)
    ensures r.file == Lookup(args, "file_path")
    ensures Truthy(Lookup(args, "query")) ==> r.query == args["query"]
    ensures !Truthy(Lookup(args, "query")) ==> r.query == DEFAULT_QUERY
    ensures r.file.Some? ==> IsSubstring(r.file.value, r.analysis)
  {
    var filePath := Lookup(args, "file_path");
    var query := Lookup(args, "query");
    var analysis := ANALYSIS_PREFIX + Interpolated(filePath);
    EndsWith(ANALYSIS_PREFIX, Interpolated(filePath));
    CodeContext(
      filePath,
      if Truthy(query) then query.value else DEFAULT_QUERY,
      analysis,
      CODE_CONTEXT_NOTE,
      CODE_CONTEXT_SUGGESTION)
  }

  // ---- the dispatcher -------------------------------------------------------

  /** The tool a result record belongs to. */
  function ToolOf(r: ToolResult): ToolName {
    match r
    case TaskCreated(_) => CreateTask
    case ProjectStatus(_) => QueryProjectStatus
    case CodeContextReport(_) => GetCodeContext
  }

  /**
   * The body of the `try` block: the record a case builds, or what it throws.
   * The name is switched on before `args` is touched, so an unknown name is
   * reported even when `args` is absent.
   */
  function Execute(name: string, args: Option<Args>, clock: Clock): (r: Result<ToolResult, ThrownError>)
    ensures ParseToolName(name).None? ==> r == Failure(UnknownTool(name))
    ensures ParseToolName(name).Some? && args.None? ==> r.Failure? && !r.error.UnknownTool?
    ensures r.Success? <==> ParseToolName(name).Some? && args.Some?
    ensures r.Success? ==> ToolOf(r.value) == ParseToolName(name).value
    ensures ParseToolName(name) == Some(CreateTask) && args.Some? ==>
      r == Success(TaskCreated(HandleCreateTask(args.value, clock.millis)))
    ensures ParseToolName(name) == Some(QueryProjectStatus) && args.Some? ==>
      r == Success(ProjectStatus(HandleQueryProjectStatus(Lookup(args.value, "query_type"), clock.iso)))
    ensures ParseToolName(name) == Some(GetCodeContext) && args.Some? ==>
      r == Success(CodeContextReport(HandleGetCodeContext(args.value)))
  {
    match ParseToolName(name)
    case None => Failure(UnknownTool(name))
    case Some(CreateTask) =>
      if args.None? then Failure(ReadOfUndefined("task_description"))
      else Success(TaskCreated(HandleCreateTask(args.value, clock.millis)))
    case Some(QueryProjectStatus) =>
      if args.None? then Failure(DestructureOfUndefined("query_type"))
      else Success(ProjectStatus(HandleQueryProjectStatus(Lookup(args.value, "query_type"), clock.iso)))
    case Some(GetCodeContext) =>
      if args.None? then Failure(DestructureOfUndefined("file_path"))
      else Success(CodeContextReport(HandleGetCodeContext(args.value)))
  }

  const ERROR_PREFIX := "Error executing tool "

  /** The envelope every successful case returns: one text block, `isError` absent. */
  function SuccessEnvelope(result: ToolResult): (e: Envelope)
    ensures !e.isError && |e.content| == 1 && e.content[0] == ContentBlock("text", Json(result))
  {
    Envelope([ContentBlock("text", Json(result))], false)
  }

  /** The envelope the `catch` block returns. */
  function ErrorEnvelope(name: string, message: string): (e: Envelope)
    ensures e.isError && |e.content| == 1 && e.content[0].kind == "text" && e.content[0].payload.Text?
    ensures var t := e.content[0].payload.text;
      && |t| == |ERROR_PREFIX| + |name| + 2 + |message|
      && t[..|ERROR_PREFIX|] == ERROR_PREFIX
      && t[|ERROR_PREFIX|..|ERROR_PREFIX| + |name|] == name
      && t[|ERROR_PREFIX| + |name|..|ERROR_PREFIX| + |name| + 2] == ": "
      && t[|ERROR_PREFIX| + |name| + 2..] == message
  {
    var t := ERROR_PREFIX + name + ": " + message;
    assert t[|ERROR_PREFIX|..|ERROR_PREFIX| + |name|] == name;
    assert t[|ERROR_PREFIX| + |name|..|ERROR_PREFIX| + |name| + 2] == ": ";
    Envelope([ContentBlock("text", Text(t))], true)
  }

  /**
   * The call-tool handler. It is total: every name and argument bag yields an
   * envelope with exactly one text block. Success and error are told apart by
   * `isError` alone, and an error envelope carries plain text.
   */
  function CallTool(name: string, args: Option<Args>, clock: Clock): (r: Envelope)
    ensures |r.content| == 1 && r.content[0].kind == "text"
    ensures r.isError <==> ParseToolName(name).None? || args.None?
    ensures r.isError <==> r.content[0].payload.Text?
    ensures r.isError ==> exists m :: r == ErrorEnvelope(name, m)
    ensures ParseToolName(name).None? ==> r == ErrorEnvelope(name, "Unknown tool: " + name)
    ensures ParseToolName(name) == Some(CreateTask) && args.None? ==>
      r == ErrorEnvelope(name, Message(ReadOfUndefined("task_description")))
    ensures ParseToolName(name) == Some(QueryProjectStatus) && args.None? ==>
      r == ErrorEnvelope(name, Message(DestructureOfUndefined("query_type")))
    ensures ParseToolName(name) == Some(GetCodeContext) && args.None? ==>
      r == ErrorEnvelope(name, Message(DestructureOfUndefined("file_path")))
    ensures !r.isError ==> ToolOf(r.content[0].payload.result) == ParseToolName(name).value
    ensures ParseToolName(name) == Some(CreateTask) && args.Some? ==>
      r == SuccessEnvelope(TaskCreated(HandleCreateTask(args.value, clock.millis)))
    ensures ParseToolName(name) == Some(QueryProjectStatus) && args.Some? ==>
      r == SuccessEnvelope(ProjectStatus(HandleQueryProjectStatus(Lookup(args.value, "query_type"), clock.iso)))
    ensures ParseToolName(name) == Some(GetCodeContext) && args.Some? ==>
      r == SuccessEnvelope(CodeContextReport(HandleGetCodeContext(args.value)))
  {
    match Execute(name, args, clock)
    case Success(result) => SuccessEnvelope(result)
    case Failure(error) => ErrorEnvelope(name, Message(error))
  }

  /** Every registered tool has a case: calling it with an argument bag never reports an unknown tool. */
  lemma RegisteredToolsDispatch(args: Args, clock: Clock)
    ensures forall t :: t in TOOLS ==> !CallTool(t.name, Some(args), clock).isError
  {
    RegisteredNames();
  }

  /** The `create_task` example: the description appears quoted, the priority is echoed. */
  lemma CreateTaskExample(clock: Clock)
    ensures var r := CallTool("create_task", Some(map["task_description" := "Fix login bug", "priority" := "urgent"]), clock);
      && !r.isError
      && r.content[0].payload.result.task.status == "created"
      && IsSubstring("\"Fix login bug\"", r.content[0].payload.result.task.message)
      && r.content[0].payload.result.task.priority == "urgent"
  {
    var args := map["task_description" := "Fix login bug", "priority" := "urgent"];
    assert Lookup(args, "task_description") == Some("Fix login bug");
    assert "\"" + Interpolated(Lookup(args, "task_description")) + "\"" == "\"Fix login bug\"";
  }

  /** Without a priority, or with an empty one, the task gets the default priority. */
  lemma CreateTaskDefaultPriority(args: Args, clock: Clock)
    requires !Truthy(Lookup(args, "priority"))
    ensures CallTool("create_task", Some(args), clock).content[0].payload.result.task.priority == DEFAULT_PRIORITY
  {
  }

  lemma SystemHealthIsHealthy(args: Args, clock: Clock)
    requires Lookup(args, "query_type") == Some("system_health")
    ensures var r := CallTool("query_project_status", Some(args), clock);
      !r.isError && r.content[0].payload.result.info.status == "healthy"
  {
  }

  /** A `query_type` outside the four cases yields the empty object, still as a success. */
  lemma UnmatchedQueryTypeIsEmpty(args: Args, clock: Clock)
    requires "query_type" !in args || args["query_type"] !in QueryTypeEnum()
    ensures CallTool("query_project_status", Some(args), clock) == Envelope([ContentBlock("text", Json(ProjectStatus(NoStatus)))], false)
  {
  }

  /** A known tool called without `arguments` is caught, not propagated. */
  lemma MissingArgumentsCaught(name: string, clock: Clock)
    requires ParseToolName(name).Some?
    ensures var r := CallTool(name, None, clock);
      r.isError && |r.content| == 1 && r.content[0].payload.Text?
  {
  }
}
