/**
 * The session table behind the HTTP endpoints: `GET /sse` stores a
 * transport under its session id, the stream's close event deletes it,
 * `POST /messages` routes by session id, and `/health` and `/` report how
 * many sessions are open. A transport is an opaque handle `H`; what it does
 * with a forwarded message belongs to the protocol library, not to this model.
 */
module Sessions {
  import opened Wrappers
  import opened Registry

  /** The three-way decision of `POST /messages`. */
  datatype RouteOutcome<H> =
    | MissingSessionId       // 400 { error: "sessionId is required" }
    | UnknownSession         // 404 { error: "Session not found" }
    | Forward(transport: H)  // handed to the transport's message handler
  {
    /** The status the route itself answers with; `None` when the transport answers. */
    function StatusCode(): (code: Option<nat>)
      ensures code.Some? <==> !Forward?
      ensures code.Some? ==> 400 <= code.value < 500
      ensures MissingSessionId? ==> code == Some(400)
      ensures UnknownSession? ==> code == Some(404)
    {
      match this
      case MissingSessionId => Some(400)
      case UnknownSession => Some(404)
      case Forward(_) => None
    }

    function ErrorBody(): (body: Option<string>)
      ensures body.Some? <==> StatusCode().Some?
      ensures body.Some? ==> body.value != ""
      ensures MissingSessionId? ==> body == Some("sessionId is required")
      ensures UnknownSession? ==> body == Some("Session not found")
    {
      match this
      case MissingSessionId => Some("sessionId is required")
      case UnknownSession => Some("Session not found")
      case Forward(_) => None
    }
  }

  /** What `GET /sse` ends in: an open stream, or a 500 with the connect error's message. */
  datatype OpenOutcome = Streaming(sessionId: string) | ConnectFailed(error: string)

  datatype HealthReport = HealthReport(
    status: string,
    server: string,
    version: string,
    activeSessions: nat,
    timestamp: string)

  datatype Endpoints = Endpoints(sse: string, messages: string, health: string)

  datatype RootInfo = RootInfo(
    name: string,
    version: string,
    description: string,
    endpoints: Endpoints,
    tools: seq<ToolSummary>,
    activeSessions: nat)

  class SessionTable<H> {
    /** `transportMap`: session id to transport. */
    var transports: map<string, H>

    /** The table is empty when the process starts. */
    constructor ()
      ensures transports == map[]
    {
      transports := map[];
    }

    /**
     * `GET /sse` for a transport whose id is `sessionId`. `connectError` is
     * what `server.connect` threw, if anything: on success the transport is
     * stored under its id (and only that key changes); on failure the table
     * is left as it was.
     */
    method Open(sessionId: string, transport: H, connectError: Option<string>) returns (o: OpenOutcome)
      modifies this
      ensures connectError.None? ==> o == Streaming(sessionId) && transports == old(transports)[sessionId := transport]
      ensures connectError.Some? ==> o == ConnectFailed(connectError.value) && transports == old(transports)
    {
      if connectError.Some? {
        return ConnectFailed(connectError.value);
      }
      transports := transports[sessionId := transport];
      o := Streaming(sessionId);
    }

    /** The stream's close event: deletes that one key, and nothing if it is already gone. */
    method Close(sessionId: string)
      modifies this
      ensures transports == old(transports) - {sessionId}
      ensures sessionId !in transports
      ensures forall k :: k in old(transports) && k != sessionId ==> k in transports && transports[k] == old(transports)[k]
    {
      transports := transports - {sessionId};
    }

    /**
     * `POST /messages?sessionId=...`: a missing or empty id is a 400 before
     * any lookup, an id with no entry is a 404, and a stored id goes to exactly
     * the transport stored for it. Routing never changes the table.
     */
    method Route(sessionId: Option<string>) returns (o: RouteOutcome<H>)
      ensures o.MissingSessionId? <==> sessionId.None? || sessionId.value == ""
      ensures o.UnknownSession? <==> sessionId.Some? && sessionId.value != "" && sessionId.value !in transports
      ensures o.Forward? <==> sessionId.Some? && sessionId.value != "" && sessionId.value in transports
      ensures o.Forward? ==> o.transport == transports[sessionId.value]
    {
      if sessionId.None? || sessionId.value == "" {
        return MissingSessionId;
      }
      var id := sessionId.value;
      if id in transports {
        o := Forward(transports[id]);
      } else {
        o := UnknownSession;
      }
    }

    /** `transportMap.size`. */
    function ActiveSessions(): (n: nat)
      reads this
      ensures n == |transports.Keys|
      ensures n == 0 <==> transports == map[]
    {
      |transports.Keys|
    }

    /** `GET /health`; `timestamp` is the clock reading `new Date().toISOString()`. */
    function Health(timestamp: string): (r: HealthReport)
      reads this
      ensures r.activeSessions == |transports.Keys|
      ensures r.status == "healthy" && r.timestamp == timestamp
    {
      HealthReport("healthy", "manus-mcp-server", "1.0.0", ActiveSessions(), timestamp)
    }

    /** `GET /`: the registry projected to `{name, description}`, in order, and the session count. */
    function Root(): (r: RootInfo)
      reads this
      ensures r.activeSessions == |transports.Keys|
      ensures |r.tools| == |TOOLS|
      ensures forall i :: 0 <= i < |TOOLS| ==> r.tools[i].name == TOOLS[i].name && r.tools[i].description == TOOLS[i].description
    {
      RootInfo(
        "Manus AI Developer MCP Server",
        "1.0.0",
        "MCP server that enables Leiah to call Manus AI for real-time development",
        Endpoints("GET /sse", "POST /messages", "GET /health"),
        Summaries(TOOLS),
        ActiveSessions())
    }
  }

  /** An id that was never stored is not found, whatever the message. */
  method RouteUnopened<H>(t: SessionTable<H>, id: string) returns (o: RouteOutcome<H>)
    requires id != "" && id !in t.transports
    ensures o == UnknownSession && o.StatusCode() == Some(404)
  {
    o := t.Route(Some(id));
  }

  /** Opening a stream and then routing to its id reaches that stream's transport. */
  method OpenThenRoute<H>(t: SessionTable<H>, id: string, transport: H) returns (o: RouteOutcome<H>)
    requires id != ""
    modifies t
    ensures t.transports == old(t.transports)[id := transport]
    ensures o == Forward(transport)
  {
    var outcome := t.Open(id, transport, None);
    o := t.Route(Some(id));
  }

  /** After the close event, routing to that id is a 404, and closing again changes nothing. */
  method CloseThenRoute<H>(t: SessionTable<H>, id: string) returns (o: RouteOutcome<H>)
    requires id != ""
    modifies t
    ensures t.transports == old(t.transports) - {id}
    ensures o == UnknownSession
  {
    t.Close(id);
    ghost var afterFirst := t.transports;
    t.Close(id);
    assert t.transports == afterFirst;
    o := t.Route(Some(id));
  }

  /** A fresh table reports no sessions; after one stream opens it reports one. */
  method HealthAfterOneStream<H>(id: string, transport: H, timestamp: string) returns (before: HealthReport, after: HealthReport)
    ensures before.activeSessions == 0
    ensures after.activeSessions == 1
  {
    var t := new SessionTable<H>();
    before := t.Health(timestamp);
    var outcome := t.Open(id, transport, None);
    after := t.Health(timestamp);
    assert t.transports == map[id := transport];
  }
}
