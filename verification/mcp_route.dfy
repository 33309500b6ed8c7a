/**
 * The `/api/mcp` HTTP endpoint of `app/api/mcp/route.ts`: it checks the
 * JSON-RPC 2.0 envelope of the posted body (section 4 of the JSON-RPC 2.0
 * Specification), forwards a well-formed request to the MCP server, and
 * chooses the HTTP status from the JSON-RPC error code, if any, of the
 * answer (the codes of section 5.1 and the server's own -32000 range).
 */
module McpRoute {
  import opened Wrappers
  import opened JsonValue
  import opened ErrorHandling
  import opened McpServer
  import UIStateStorage
  import Components

  const ParseErrorCode: int := -32700

  /** The HTTP answer: a status and the JSON-RPC response object. */
  datatype HttpReply = HttpReply(status: int, response: McpResponse)

  /** A request that passed the envelope checks, as it is handed to the server. */
  datatype Forwarded = Forwarded(id: Json, rpcMethod: string, params: Option<Json>)

  /** `v ?? fallback`. */
  function Coalesce(v: Option<Json>, fallback: Json): (r: Json)
    ensures v.Some? && !v.value.JNull? ==> r == v.value
    ensures v.None? || v.value.JNull? ==> r == fallback
  {
    if v.Some? && !v.value.JNull? then v.value else fallback
  }

  /** The answer to a body that cannot be read: -32700 "Parse error", id `null`, HTTP 400. */
  const ParseErrorReply := HttpReply(400, McpResponse(JNull, Err(McpError(ParseErrorCode, "Parse error", None))))

  /**
   * The envelope checks. An unreadable body, and a `null` body (reading
   * its `jsonrpc` throws), get the parse-error answer; a `jsonrpc` other
   * than "2.0" and a missing or non-string `method` get -32600 and HTTP 400
   * with the body's id or `null`. Otherwise the request goes on with its
   * id, or 1 when it has none.
   */
  function Envelope(body: Option<Json>): (r: Result<Forwarded, HttpReply>)
    ensures r.Err? ==> r.error.status == 400 && r.error.response.outcome.Err?
    ensures r.Ok? <==> (body.Some? && !body.value.JNull? && Field(body.value, "jsonrpc") == Some(JStr("2.0"))
                        && Field(body.value, "method").Some? && Field(body.value, "method").value.JStr?
                        && Field(body.value, "method").value.s != "")
    ensures r.Ok? ==> r.value == Forwarded(Coalesce(Field(body.value, "id"), JNum(1)), Field(body.value, "method").value.s,
                                           Field(body.value, "params"))
    ensures r.Err? && body.Some? && !body.value.JNull? ==>
      r.error.response.id == Coalesce(Field(body.value, "id"), JNull) && r.error.response.outcome.error.code == InvalidRequestCode
  {
    if body.None? || body.value.JNull? then Err(ParseErrorReply)
    else
      var b := body.value;
      var id := Coalesce(Field(b, "id"), JNull);
      var jsonrpc := Field(b, "jsonrpc");
      var rpcMethod := Field(b, "method");
      if !Truthy(jsonrpc) || jsonrpc != Some(JStr("2.0")) then
        Err(HttpReply(400, McpResponse(id, Err(McpError(InvalidRequestCode, "Invalid JSON-RPC request", None)))))
      else if !Truthy(rpcMethod) || !rpcMethod.value.JStr? then
        Err(HttpReply(400, McpResponse(id, Err(McpError(InvalidRequestCode, "Method is required", None)))))
      else Ok(Forwarded(Coalesce(Field(b, "id"), JNum(1)), rpcMethod.value.s, Field(b, "params")))
  }

  /** `getErrorStatus(code)`. */
  function GetErrorStatus(code: int): (status: int)
    ensures status in {400, 404, 409, 422, 500}
    ensures status == 500 <==> code !in {-32700, -32600, -32602, -32601, -32000, -32001, -32002}
  {
    if code == -32700 || code == -32600 || code == -32602 then 400
    else if code == -32601 || code == -32000 then 404
    else if code == -32001 then 422
    else if code == -32002 then 409
    else 500
  }

  /** The status of a server response: 200 without an error, otherwise by its code. */
  function ResponseStatus(response: McpResponse): (status: int)
    ensures status == 200 <==> response.outcome.Ok?
  {
    if response.outcome.Err? then GetErrorStatus(response.outcome.error.code) else 200
  }

  /**
   * For the three application-error subclasses, the HTTP status the
   * endpoint sends after the server's translation is the error's own
   * status code: 404, 400 and 409.
   */
  lemma StatusMatchesAppError(e: AppError)
    requires !e.AppError?
    ensures GetErrorStatus(ErrorToMcpError(App(e)).code) == GetErrorStatusCode(App(e))
  {
    ErrorCodes(e, McpError(0, "", None));
  }

  /** An unknown method answers 404; an unknown tool, resource or other thrown `Error` answers 500. */
  lemma DispatchStatuses(rpcMethod: string, t: Thrown)
    ensures ResponseStatus(McpResponse(JNull, Err(McpError(MethodNotFoundCode, "Method not found: " + rpcMethod, None)))) == 404
    ensures ErrorName(t) !in {Some("NotFoundError"), Some("ValidationError"), Some("VersionConflictError")} ==>
      GetErrorStatus(ErrorToMcpError(t).code) == 500
  {
  }

  /** `POST(request)`: the envelope checks, then the server's answer with its status. */
  method Post(server: McpServer, store: UIStateStorage.UIStateStore, registry: Components.ComponentRegistry,
              body: Option<Json>, now: string, throwing: set<Callback>)
    returns (reply: HttpReply)
    requires server.Valid() && registry.Valid()
    modifies server, store
    ensures server.Valid()
    ensures Envelope(body).Err? ==>
      (reply == Envelope(body).error && store.states == old(store.states) && server.sent == old(server.sent))
    ensures Envelope(body).Ok? ==>
      (reply.status == ResponseStatus(reply.response) && reply.response.id == Envelope(body).value.id)
    ensures Envelope(body).Ok? && Envelope(body).value.rpcMethod !in KnownMethods ==>
      (reply.status == 404 && store.states == old(store.states) && server.sent == old(server.sent))
    ensures Envelope(body).Ok? && Envelope(body).value.rpcMethod in KnownMethods ==>
      var request := Envelope(body).value;
      match RequestOutcome(old(store.states), registry.entries, registry.GetAllComponents(), request.rpcMethod,
                           request.params, now)
      case Err(t) => reply.response == McpResponse(request.id, Err(ErrorToMcpError(t)))
                     && store.states == old(store.states) && server.sent == old(server.sent)
      case Ok(o) => reply.response == McpResponse(request.id, Ok(o.result)) && store.states == o.states
                    && server.sent == old(server.sent) + Deliveries(server.order, server.sseClients, o.note)
  {
    var checked := Envelope(body);
    if checked.Err? {
      return checked.error;
    }
    var request := checked.value;
    var response := server.HandleRequest(store, registry, request.id, request.rpcMethod, request.params, now, throwing);
    var status := if response.outcome.Err? then GetErrorStatus(response.outcome.error.code) else 200;
    return HttpReply(status, response);
  }
}
