# manus-mcp-server, modelled in Dafny

The server is one JavaScript file, `index.js`. It exposes three tools over the
Model Context Protocol (MCP) on a Server-Sent Events (SSE) stream. This model
covers its two parts:

- **Tool registry and call dispatcher** (modules `Registry`, `Dispatch`, `NumberText`),
  written as pure functions. `TOOLS` is the fixed, ordered list of tool descriptors,
  and the "list tools" handler returns it unchanged. `CallTool` models the call-tool
  handler. It switches on the tool name. Each tool's case builds a result record,
  filling in a default when an argument is falsy. An unknown name throws, and the
  `catch` turns every thrown error into an envelope with one text block and
  `isError: true`.
- **Session table and message routing** (module `Sessions`), written as the class
  `SessionTable` over a `map<string, H>` field. `H` is the opaque transport handle.
  `Open` is `GET /sse`, `Close` is the stream's close event, and `Route` is
  `POST /messages`. `ActiveSessions`, `Health` and `Root` are the session counts
  and the tool projection reported by `/health` and `/`.

Modelling choices:

- A call's `arguments` is `Option<map<string, string>>`. `None` is an absent
  (`undefined`) argument bag, and a missing key is an `undefined` field.
- JavaScript truthiness of such a value is `Truthy`: present and not the empty string.
- `${v}` is `Interpolated`, which gives `"undefined"` for a missing value.
- `JSON.stringify` of a result record is not modelled: a success block carries the
  record itself (`Payload.Json`). An error block carries real text (`Payload.Text`).
- `isError` is a `bool`. `false` stands for the field being absent, which is how
  every success reply leaves it.
- The clock reads (`Date.now()`, `new Date().toISOString()`) are passed in as `Clock`.
- What `server.connect` throws is passed to `Open` as `connectError`. The transport's
  session id is also a parameter: the transport generates it and the model cannot see how.
- A missing `arguments` makes each case throw a `TypeError`. Its message text
  (`Dispatch.Message`) is the wording of the V8 JavaScript engine, not text from the
  repository.
- The task id `task_${Date.now()}` is modelled with the integer text of the
  millisecond count (`NumberText.IntText`: a `-` before the digits of a reading
  before 1970). It is proved to parse back to that count, so different clock
  readings give different ids.

## Model

| member | source | states |
|---|---|---|
| `Registry.RegisteredNames` | index.js:31-88 | The registry lists exactly `create_task`, `query_project_status`, `get_code_context`, in that order. |
| `Registry.NamesDistinct` | index.js:31-88 | Tool names are unique. |
| `Registry.RequiredFieldsDeclared` | index.js:31-88 | Every required field of each input schema is a declared property. |
| `Registry.QueryTypeEnumMatchesCases` | index.js:61-64 | The `query_type` enum lists exactly the four values the status switch handles. |
| `Registry.ListTools` | index.js:91-95 | The "list tools" reply is `TOOLS` unchanged, in registry order. |
| `Registry.ParseToolName` | index.js:102-232 | A name has a dispatcher case exactly when the registry lists a tool of that name. The case found is the tool of that name. |
| `Registry.ToolNameRoundTrip` | index.js:102-232 | Name and case determine each other, in both directions. |
| `Registry.ParseQueryType` | index.js:134-199 | The strict switch on `query_type` matches exactly the values the registry's enum declares. An absent value matches none. |
| `Registry.QueryTypeRoundTrip` | index.js:134-199 | Each status case is reached by its own name. |
| `Registry.Summaries` | index.js:323 | The root endpoint's tool list has one `{name, description}` per tool, in the same order. |
| `NumberText.Decimal` | index.js:105 | The clock's text is a non-empty digit string with no leading zero, except for 0 itself. |
| `NumberText.DecimalRoundTrip` | index.js:105 | Reading the decimal text back gives the number. |
| `NumberText.DecimalInjective` | index.js:105 | Different numbers have different decimal texts. |
| `NumberText.ParseDecimal` | index.js:105 | Nothing in the source parses a number. This is the inverse used to state the task-id round trip, and it succeeds exactly on non-empty digit strings. |
| `NumberText.ParseDecimalRoundTrip` | index.js:105 | Parsing the decimal text of `n` gives `n`. |
| `NumberText.IntText` | index.js:105 | The text of a non-negative reading is its decimal text; a negative reading is `-` followed by the decimal text of its magnitude. |
| `NumberText.IntTextRoundTrip` | index.js:105 | `ParseInt`, the inverse used to state the round trip, reads the integer text of `i` back as `i`, for negative readings too. |
| `NumberText.IntTextInjective` | index.js:105 | Different integers have different texts. |
| `Dispatch.TaskId` | index.js:105 | A task id is `task_` followed by the clock's integer text: its digits, with a `-` before them for a reading before 1970. |
| `Dispatch.TaskIdRoundTrip` | index.js:105 | The clock reading can be recovered from a task id. |
| `Dispatch.TaskIdInjective` | index.js:105 | Tasks created at different milliseconds get different ids. |
| `Dispatch.HandleCreateTask` | index.js:105-118 | The status is `"created"`. The task id is `task_` followed by JavaScript's text of the clock, and the clock can be read back from it. The message holds the description in double quotes (`"undefined"` when it is absent). The priority is the supplied one when truthy, else `"medium"`. |
| `Dispatch.HandleQueryProjectStatus` | index.js:131-199 | The result is the empty object exactly when `query_type` is none of the four declared values. `system_health` reports status `"healthy"` stamped with the clock. `recent_changes` is stamped with the clock. `active_features` and `todo_list` give their own records. |
| `Dispatch.HandleGetCodeContext` | index.js:212-219 | `file` echoes `file_path`, and is absent when `file_path` is. `query` is the supplied one when truthy, else `"General file information"`. The analysis text contains the file path. |
| `Dispatch.Execute` | index.js:101-233 | An unknown name throws `Unknown tool: <name>`, even if `arguments` is absent. A known name without `arguments` throws a different error. The try block succeeds exactly for a known name with arguments. It then yields that tool's handler applied to those arguments: `HandleCreateTask` on the bag and the clock's milliseconds, `HandleQueryProjectStatus` on `query_type` and the clock's timestamp, `HandleGetCodeContext` on the bag. |
| `Dispatch.CallTool` | index.js:98-245 | Total: every call returns an envelope with exactly one `"text"` block. `isError` is set exactly for an unknown name or absent arguments, and every error reply is the catch block's envelope `Error executing tool <name>: <message>`. An unknown name gives the message `Unknown tool: <name>`. A known tool without `arguments` gives its TypeError: reading `task_description` for `create_task`, destructuring `query_type` or `file_path` for the other two. The block is plain text exactly when `isError` is set. A known tool with arguments gets the success envelope holding that tool's handler applied to the arguments, so the handler's defaults hold for the whole call. |
| `Dispatch.Message` | index.js:109-239 | The unknown-tool message is `Unknown tool: <name>` (line 232). A TypeError's message names, in single quotes, the property whose access failed (lines 109, 131, 212). |
| `Dispatch.SuccessEnvelope` | index.js:120-127 | A successful case's reply: one `"text"` block holding the result record, with `isError` absent. |
| `Dispatch.ErrorEnvelope` | index.js:234-244 | The catch block's reply: `isError` set and one text block. The text is `Error executing tool `, then the tool name, then `: `, then the message, and each part can be read back. |
| `Dispatch.RegisteredToolsDispatch` | index.js:102-232 | Calling any registered tool with an argument bag never yields an error envelope. |
| `Dispatch.CreateTaskExample` | index.js:106-118 | `create_task` with description `Fix login bug` and priority `urgent` succeeds. It has status `created`, a message containing `"Fix login bug"`, and priority `urgent`. |
| `Dispatch.CreateTaskDefaultPriority` | index.js:110 | A missing or empty priority becomes `"medium"`. |
| `Dispatch.SystemHealthIsHealthy` | index.js:170-178 | `query_project_status` with `system_health` succeeds with status `"healthy"`. |
| `Dispatch.UnmatchedQueryTypeIsEmpty` | index.js:132-208 | A missing or undeclared `query_type` yields the empty status object as a success envelope. |
| `Dispatch.MissingArgumentsCaught` | index.js:101-244 | A known tool called without `arguments` gives a one-block error envelope. Nothing propagates. |
| `Sessions.RouteOutcome.StatusCode` | index.js:285-298 | The route itself answers only when it does not forward. A missing id is 400 and an unknown session is 404. |
| `Sessions.RouteOutcome.ErrorBody` | index.js:285-298 | An error body is sent exactly when the route answers itself: `sessionId is required` for a missing id, `Session not found` for an unknown one. |
| `Sessions.SessionTable.constructor` | index.js:248 | The session table starts empty. |
| `Sessions.SessionTable.Open` | index.js:254-276 | If connecting succeeds, the transport is stored under its session id and no other key changes. If connecting throws, the table is unchanged and the outcome carries the error message for the 500 reply. |
| `Sessions.SessionTable.Close` | index.js:267-270 | Deletes that key and only that key. Every other entry stays as it was. Closing an absent key changes nothing. |
| `Sessions.SessionTable.Route` | index.js:280-299 | A missing or empty id is 400. A non-empty id absent from the table is 404. A stored id is forwarded to exactly the transport stored for it. Routing does not change the table. |
| `Sessions.SessionTable.ActiveSessions` | index.js:307 | The session count is the number of keys in the table, and it is 0 exactly when the table is empty. |
| `Sessions.SessionTable.Health` | index.js:302-310 | `/health` reports `"healthy"`, the clock's timestamp, and the number of open sessions. |
| `Sessions.SessionTable.Root` | index.js:313-326 | `/` lists every registered tool's name and description in registry order, and the number of open sessions. |
| `Sessions.RouteUnopened` | index.js:290-298 | Routing to an id that was never stored answers 404. |
| `Sessions.OpenThenRoute` | index.js:259-294 | After a successful open, routing to that id reaches the transport just stored. |
| `Sessions.CloseThenRoute` | index.js:267-297 | After the close event, routing to that id answers 404. A second close changes nothing. |
| `Sessions.HealthAfterOneStream` | index.js:262-307 | A fresh table reports 0 active sessions. After one stream opens, it reports 1. |

`Registry.TOOLS` (index.js:31-88) is a constant, so it has no row of its own. Its literals are copied from the source. Its contents are stated by `Registry.RegisteredNames`, `Registry.NamesDistinct`, `Registry.RequiredFieldsDeclared`, `Registry.QueryTypeEnumMatchesCases` and `Registry.ListTools`.

## Left out

- Express, CORS and dotenv setup, `app.listen` and the `PORT` default (index.js:7-15, 328-335): HTTP server plumbing.
- The SSE transport's internals, `server.connect` and `transport.handlePostMessage`: these are calls into the MCP SDK, which is not part of this model. The transport is the opaque type `H`. Forwarding is the `Forward` outcome. A connect failure is the `connectError` parameter.
- Because of that, the transport's own reply to a forwarded message is not modelled, including a routed "list tools" request answered with the registry.
- `JSON.stringify` formatting: results are structured records, not their serialized text.
- The clock reads `Date.now()` and `toISOString()`: they are parameters. The millisecond reading is any integer, negative included. JavaScript bounds time values by 8.64 * 10^15, but no `requires` states this bound. Past 10^21 JavaScript would switch to exponent notation, which `NumberText.IntText` does not produce; a reading that large cannot occur.
- Argument values other than strings (numbers, booleans, `null`, objects). The schema declares strings but nothing enforces it, and other values would differ in truthiness and interpolation.
- A `sessionId` query parameter given more than once (an array in Express) is not modelled.
- Sessions.SessionTable.Open: the `res.headersSent` test is not modelled. The model reports `ConnectFailed` on every connect error, whereas the source writes the 500 reply only when no headers were sent yet.
- `console` logging.
- Interleaving of concurrent requests on the event loop. An example is a message routed while `server.connect` is still pending; in the model, `Open` is atomic.
