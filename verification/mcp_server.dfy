/**
 * The MCP server of `lib/mcp/server.ts`: JSON-RPC method dispatch, the
 * four tools behind `tools/call`, the one resource behind
 * `resources/read`, the translation of thrown errors into JSON-RPC
 * errors, and the map of server-sent-event clients that hear about every
 * successful `modify_ui`. What a request answers and what it changes is
 * given by `RequestOutcome`; the `McpServer` class does it step by step.
 */
module McpServer {
  import opened Wrappers
  import opened JsonValue
  import opened UIStateStorage
  import opened ErrorHandling
  import Components
  import ValidateTreeTool
  import ModifyUITool

  const InternalErrorCode: int := -32603
  const ProtocolVersion := "2024-11-05"
  const ServerName := "dynamic-todo-mcp"
  const ServerVersion := "1.0.0"
  const RegistryUri := "components://registry"
  const JsonMimeType := "application/json"

  // ----- Catalogues -----

  /** A tool as `tools/list` describes it: its argument names, the required ones, and the allowed operations. */
  datatype ToolDefinition = ToolDefinition(name: string, description: string, properties: seq<string>, required: seq<string>,
                                           operations: seq<string>)

  const Tools: seq<ToolDefinition> := [
    ToolDefinition("get_current_tree", "Get the current UI tree for a user", ["userId"], ["userId"], []),
    ToolDefinition("get_component_details",
                   "Get detailed information about a specific UI component including props and examples",
                   ["componentName"], ["componentName"], []),
    ToolDefinition("validate_tree", "Validate a UI tree structure before applying changes", ["tree"], ["tree"], []),
    ToolDefinition("modify_ui",
                   "Modify the UI tree for a user by applying add, remove, update, or replace operations",
                   ["userId", "operation", "path", "component", "props"], ["userId", "operation", "path"],
                   ["add", "remove", "update", "replace"])
  ]

  datatype ResourceDefinition = ResourceDefinition(uri: string, name: string, description: string, mimeType: string)

  const Resources: seq<ResourceDefinition> :=
    [ResourceDefinition(RegistryUri, "Component Registry", "List of all available UI components", JsonMimeType)]

  /** `tools/list` offers four tools, each requiring only arguments it declares; `modify_ui` takes four operations. */
  lemma ToolCatalogue()
    ensures |Tools| == 4
    ensures forall t :: t in Tools ==> forall a :: a in t.required ==> a in t.properties
    ensures Tools[3].name == "modify_ui" && Tools[3].required == ["userId", "operation", "path"]
    ensures Tools[3].operations == ["add", "remove", "update", "replace"]
    ensures forall i, j :: 0 <= i < j < |Tools| ==> Tools[i].name != Tools[j].name
  {
  }

  // ----- Results and errors -----

  datatype ToolResult =
    | Tree(tree: Obj)
    | Details(details: Components.ComponentDetails)
    | Validation(validation: ValidateTreeTool.ValidationResult)
    | Modified(modified: ModifyUITool.ModifyUIResult)

  /** A successful request's `result`; a tool's result is sent as the text of its JSON. */
  datatype RequestResult =
    | Initialized(protocolVersion: string, serverName: string, serverVersion: string)
    | ToolList(tools: seq<ToolDefinition>)
    | ResourceList(resources: seq<ResourceDefinition>)
    | ResourceContents(uri: string, mimeType: string, components: seq<Components.ComponentDetails>)
    | ToolContent(content: ToolResult)

  /** A JSON-RPC response: the request's `id` with either a result or an error. */
  datatype McpResponse = McpResponse(id: Json, outcome: Result<RequestResult, McpError>)

  /** The `ui/changed` notification: whose tree changed and the `modify_ui` result. */
  datatype Notification = UiChanged(userId: string, result: ModifyUITool.ModifyUIResult)

  /** What a request produced, the stored states afterwards, and the notification it sent, if any. */
  datatype Outcome<R> = Outcome(result: R, states: map<string, UIState>, note: Option<Notification>)

  /**
   * `errorToMCPError(error)`: an `Error` is classified by its `name` and
   * keeps its message; anything else is an internal "Unknown error".
   */
  function ErrorToMcpError(t: Thrown): (e: McpError)
    ensures e.data.None?
    ensures e.code in {ComponentNotFoundCode, InvalidParamsCode, VersionConflictCode, InternalErrorCode}
    ensures ErrorName(t).Some? ==> e.message == ErrorMessage(t).value
    ensures ErrorName(t).None? ==> e == McpError(InternalErrorCode, "Unknown error", None)
  {
    match ErrorName(t)
    case None => McpError(InternalErrorCode, "Unknown error", None)
    case Some(name) =>
      var code :=
        if name == "NotFoundError" then ComponentNotFoundCode
        else if name == "ValidationError" then InvalidParamsCode
        else if name == "VersionConflictError" then VersionConflictCode
        else InternalErrorCode;
      McpError(code, ErrorMessage(t).value, None)
  }

  /** The three application-error subclasses get their own codes; the base class and `MCPError` are internal. */
  lemma ErrorCodes(e: AppError, m: McpError)
    ensures ErrorToMcpError(App(e)).code ==
      match e
      case NotFoundError(_, _) => -32000
      case ValidationError(_, _) => -32602
      case VersionConflictError(_, _) => -32002
      case AppError(_, _, _, _) => -32603
    ensures ErrorToMcpError(App(e)).message == e.Message()
    ensures ErrorToMcpError(Mcp(m)) == McpError(-32603, m.message, None)
  {
  }

  /** `throw new Error(...)`: a plain `Error` with the given message. */
  function PlainError(message: string): Thrown {
    OtherError("Error", message)
  }

  /** A value that can be destructured: anything but `undefined` and `null`. */
  predicate Destructurable(v: Option<Json>) {
    v.Some? && !v.value.JNull?
  }

  /** A user id the storage can build a file path from. */
  predicate StringId(v: Option<Json>) {
    v.Some? && v.value.JStr?
  }

  // ----- What a request does -----

  /**
   * `handleToolCall(params)` run against the stored states. Missing
   * `params` or `arguments` and a user id that is not a string throw a
   * TypeError; an unknown user or component throws `NotFoundError`; a
   * failed `modify_ui` throws its `ValidationError`; an unknown tool name
   * throws a plain `Error`. Only a successful `modify_ui` stores a tree and
   * sends a notification.
   */
  function ToolCallOutcome(states: map<string, UIState>, entries: map<string, Components.ComponentDetails>,
                           params: Option<Json>, now: string): Result<Outcome<ToolResult>, Thrown>
  {
    if !Destructurable(params) then Err(EngineTypeError)
    else
      var name := Field(params.value, "name");
      var args := Field(params.value, "arguments");
      if name == Some(JStr("get_current_tree")) then TreeOutcome(states, args)
      else if name == Some(JStr("get_component_details")) then DetailsOutcome(states, entries, args)
      else if name == Some(JStr("validate_tree")) then ValidationOutcome(states, entries, args)
      else if name == Some(JStr("modify_ui")) then ModifyToolOutcome(states, entries, args, now)
      else Err(PlainError("Unknown tool: " + JsString(name)))
  }

  /** `get_current_tree`: the user's stored tree. */
  function TreeOutcome(states: map<string, UIState>, args: Option<Json>): Result<Outcome<ToolResult>, Thrown> {
    if !Destructurable(args) || !StringId(Field(args.value, "userId")) then Err(EngineTypeError)
    else
      var userId := Field(args.value, "userId").value.s;
      if userId !in states then Err(App(NotFoundError("User", userId)))
      else Ok(Outcome(Tree(states[userId].tree), states, None))
  }

  /** `get_component_details`: the registry entry of the named component. */
  function DetailsOutcome(states: map<string, UIState>, entries: map<string, Components.ComponentDetails>,
                          args: Option<Json>): Result<Outcome<ToolResult>, Thrown>
  {
    if !Destructurable(args) then Err(EngineTypeError)
    else
      var componentName := Field(args.value, "componentName");
      if componentName.Some? && componentName.value.JStr? && componentName.value.s in entries then
        Ok(Outcome(Details(entries[componentName.value.s]), states, None))
      else Err(App(NotFoundError("Component", JsString(componentName))))
  }

  /** `validate_tree`: the validation report of the given tree. */
  function ValidationOutcome(states: map<string, UIState>, entries: map<string, Components.ComponentDetails>,
                             args: Option<Json>): Result<Outcome<ToolResult>, Thrown>
  {
    if !Destructurable(args) then Err(EngineTypeError)
    else
      match ValidateTreeTool.Validate(entries, Field(args.value, "tree"))
      case Err(_) => Err(EngineTypeError)
      case Ok(v) => Ok(Outcome(Validation(v), states, None))
  }

  /** `modify_ui`: the edit, the stored states after it, and the notification of a success. */
  function ModifyToolOutcome(states: map<string, UIState>, entries: map<string, Components.ComponentDetails>,
                         args: Option<Json>, now: string): Result<Outcome<ToolResult>, Thrown>
  {
    if !Destructurable(args) || !StringId(Field(args.value, "userId")) then Err(EngineTypeError)
    else
      var userId := Field(args.value, "userId").value.s;
      match ModifyUITool.ModifyOutcome(states, entries, userId, Field(args.value, "operation"), Field(args.value, "path"),
                                       Field(args.value, "component"), Field(args.value, "props"), now)
      case (Err(e), _) => Err(App(e))
      case (Ok(result), after) => Ok(Outcome(Modified(result), after, Some(UiChanged(userId, result))))
  }

  /** The methods `handleRequest` answers itself; any other method is "not found". */
  const KnownMethods: set<string> := {"initialize", "tools/list", "resources/list", "resources/read", "tools/call"}

  /**
   * What the methods answered without the store produce: `initialize`,
   * `tools/list`, `resources/list` and otherwise `resources/read`, whose
   * only resource is the component registry.
   */
  function Answer(catalogue: seq<Components.ComponentDetails>, rpcMethod: string, params: Option<Json>)
    : Result<RequestResult, Thrown>
  {
    if rpcMethod == "initialize" then Ok(Initialized(ProtocolVersion, ServerName, ServerVersion))
    else if rpcMethod == "tools/list" then Ok(ToolList(Tools))
    else if rpcMethod == "resources/list" then Ok(ResourceList(Resources))
    else if !Destructurable(params) then Err(EngineTypeError)
    else if Field(params.value, "uri") == Some(JStr(RegistryUri)) then
      Ok(ResourceContents(RegistryUri, JsonMimeType, catalogue))
    else Err(PlainError("Unknown resource: " + JsString(Field(params.value, "uri"))))
  }

  /** What a known method produces; `catalogue` is `getAllComponents()`. */
  function RequestOutcome(states: map<string, UIState>, entries: map<string, Components.ComponentDetails>,
                          catalogue: seq<Components.ComponentDetails>, rpcMethod: string, params: Option<Json>, now: string)
    : Result<Outcome<RequestResult>, Thrown>
  {
    if rpcMethod == "tools/call" then
      match ToolCallOutcome(states, entries, params, now)
      case Err(t) => Err(t)
      case Ok(o) => Ok(Outcome(ToolContent(o.result), o.states, o.note))
    else
      match Answer(catalogue, rpcMethod, params)
      case Err(t) => Err(t)
      case Ok(a) => Ok(Outcome(a, states, None))
  }

  /** Every callback called once with the notification, in registration order. */
  function Deliveries(order: seq<string>, clients: map<string, Callback>, note: Option<Notification>)
    : (r: seq<(Callback, Notification)>)
    requires forall c :: c in order ==> c in clients
    ensures note.None? ==> r == []
    ensures note.Some? ==> |r| == |order| && forall i :: 0 <= i < |order| ==> r[i] == (clients[order[i]], note.value)
  {
    if note.None? then [] else seq(|order|, i requires 0 <= i < |order| => (clients[order[i]], note.value))
  }

  // ----- Properties of the dispatch -----

  /**
   * Only `modify_ui` changes the stored states or notifies, and it does
   * both exactly when it succeeds: the user's record then holds the new
   * tree under the next version, and the notification carries the result.
   */
  lemma OnlyModifyWrites(states: map<string, UIState>, entries: map<string, Components.ComponentDetails>,
                         params: Option<Json>, now: string)
    ensures var r := ToolCallOutcome(states, entries, params, now);
      r.Ok? && (r.value.note.Some? || r.value.states != states) ==> Field(params.value, "name") == Some(JStr("modify_ui"))
    ensures var r := ToolCallOutcome(states, entries, params, now);
      r.Ok? && Field(params.value, "name") == Some(JStr("modify_ui")) ==>
        var userId := Field(Field(params.value, "arguments").value, "userId").value.s;
        userId in states && r.value.result.Modified?
        && r.value.note == Some(UiChanged(userId, r.value.result.modified))
        && r.value.states == states[userId := UIState(states[userId].version + 1, userId,
                                                       r.value.result.modified.newTree, now)]
  {
  }

  /** An unknown tool or resource is answered with the internal-error code and a message naming it. */
  lemma UnknownNamesAreInternal(states: map<string, UIState>, entries: map<string, Components.ComponentDetails>,
                                catalogue: seq<Components.ComponentDetails>, params: Json, now: string)
    requires !params.JNull?
    ensures var name := Field(params, "name");
      name !in {Some(JStr("get_current_tree")), Some(JStr("get_component_details")), Some(JStr("validate_tree")),
                Some(JStr("modify_ui"))} ==>
      var r := RequestOutcome(states, entries, catalogue, "tools/call", Some(params), now);
      r.Err? && ErrorToMcpError(r.error) == McpError(InternalErrorCode, "Unknown tool: " + JsString(name), None)
    ensures var uri := Field(params, "uri");
      uri != Some(JStr(RegistryUri)) ==>
      var r := RequestOutcome(states, entries, catalogue, "resources/read", Some(params), now);
      r.Err? && ErrorToMcpError(r.error) == McpError(InternalErrorCode, "Unknown resource: " + JsString(uri), None)
  {
  }

  // ----- The server object -----

  /** A registered client's callback, known by an opaque handle. */
  datatype Callback = Callback(handle: nat)

  function Without(s: seq<string>, x: string): (r: seq<string>)
    ensures forall y :: y in r <==> y in s && y != x
    ensures Components.Distinct(s) ==> Components.Distinct(r)
    decreases |s|
  {
    if s == [] then []
    else
      var rest := Without(s[1..], x);
      assert forall y :: y in s <==> y == s[0] || y in s[1..];
      if s[0] == x then rest
      else
        assert Components.Distinct(s) ==> s[0] !in s[1..];
        [s[0]] + rest
  }

  class McpServer {
    /** `sseClients`: each client id's callback. */
    var sseClients: map<string, Callback>
    /** The client ids in the map's iteration (insertion) order. */
    var order: seq<string>
    /** Every callback invocation so far, with its notification. */
    var sent: seq<(Callback, Notification)>

    ghost predicate Valid()
      reads this
    {
      Components.Distinct(order) && forall c :: c in sseClients <==> c in order
    }

    constructor()
      ensures Valid() && sseClients == map[] && order == [] && sent == []
    {
      sseClients := map[];
      order := [];
      sent := [];
    }

    /** `registerSSEClient(id, callback)`: sets the entry; an id already present keeps its place. */
    method RegisterSSEClient(clientId: string, callback: Callback)
      requires Valid()
      modifies this
      ensures Valid()
      ensures sseClients == old(sseClients)[clientId := callback]
      ensures order == if clientId in old(sseClients) then old(order) else old(order) + [clientId]
      ensures sent == old(sent)
    {
      if clientId !in sseClients {
        order := order + [clientId];
      }
      sseClients := sseClients[clientId := callback];
    }

    /** `unregisterSSEClient(id)`: removes the entry, if any. */
    method UnregisterSSEClient(clientId: string)
      requires Valid()
      modifies this
      ensures Valid()
      ensures sseClients == old(sseClients) - {clientId}
      ensures order == Without(old(order), clientId)
      ensures sent == old(sent)
    {
      sseClients := sseClients - {clientId};
      order := Without(order, clientId);
    }

    /**
     * `notifyClients(notification)`: calls every callback in order. A
     * callback in `throwing` throws; the error is caught and logged, and
     * the remaining callbacks are still called.
     */
    method NotifyClients(note: Notification, throwing: set<Callback>)
      requires Valid()
      modifies this
      ensures Valid() && sseClients == old(sseClients) && order == old(order)
      ensures sent == old(sent) + Deliveries(order, sseClients, Some(note))
    {
      var i := 0;
      while i < |order|
        invariant 0 <= i <= |order|
        invariant sseClients == old(sseClients) && order == old(order)
        invariant sent == old(sent) + Deliveries(order[..i], sseClients, Some(note))
      {
        var callback := sseClients[order[i]];
        sent := sent + [(callback, note)];
        if callback in throwing {
          // The callback threw; the error is logged and the loop goes on.
        }
        assert Deliveries(order[..i + 1], sseClients, Some(note))
          == Deliveries(order[..i], sseClients, Some(note)) + [(callback, note)];
        i := i + 1;
      }
      assert order[..i] == order;
    }

    /** `handleToolCall(params)`. */
    method HandleToolCall(store: UIStateStore, registry: Components.ComponentRegistry, params: Option<Json>, now: string,
                          throwing: set<Callback>)
      returns (r: Result<ToolResult, Thrown>)
      requires Valid() && registry.Valid()
      modifies this, store
      ensures Valid() && sseClients == old(sseClients) && order == old(order)
      ensures match ToolCallOutcome(old(store.states), registry.entries, params, now)
        case Err(t) => r == Err(t) && store.states == old(store.states) && sent == old(sent)
        case Ok(o) => r == Ok(o.result) && store.states == o.states && sent == old(sent) + Deliveries(order, sseClients, o.note)
    {
      if params.None? || params.value.JNull? {
        return Err(EngineTypeError);
      }
      var name := Field(params.value, "name");
      var args := Field(params.value, "arguments");
      if name == Some(JStr("get_current_tree")) {
        r := CallGetCurrentTree(store, args);
      } else if name == Some(JStr("get_component_details")) {
        r := CallGetComponentDetails(store, registry, args);
      } else if name == Some(JStr("validate_tree")) {
        r := CallValidateTree(store, registry, args);
      } else if name == Some(JStr("modify_ui")) {
        r := CallModifyUI(store, registry, args, now, throwing);
      } else {
        r := Err(PlainError("Unknown tool: " + JsString(name)));
      }
    }

    /** The `get_current_tree` case. */
    method CallGetCurrentTree(store: UIStateStore, args: Option<Json>) returns (r: Result<ToolResult, Thrown>)
      ensures match TreeOutcome(store.states, args)
        case Err(t) => r == Err(t)
        case Ok(o) => r == Ok(o.result) && o.states == store.states && o.note.None?
    {
      if args.None? || args.value.JNull? {
        return Err(EngineTypeError);
      }
      var userId := Field(args.value, "userId");
      if userId.None? || !userId.value.JStr? {
        return Err(EngineTypeError);
      }
      var state := store.GetUserUIState(userId.value.s);
      if state.None? {
        return Err(App(NotFoundError("User", userId.value.s)));
      }
      return Ok(Tree(state.value.tree));
    }

    /** The `get_component_details` case. */
    method CallGetComponentDetails(store: UIStateStore, registry: Components.ComponentRegistry, args: Option<Json>)
      returns (r: Result<ToolResult, Thrown>)
      requires registry.Valid()
      ensures match DetailsOutcome(store.states, registry.entries, args)
        case Err(t) => r == Err(t)
        case Ok(o) => r == Ok(o.result) && o.states == store.states && o.note.None?
    {
      if args.None? || args.value.JNull? {
        return Err(EngineTypeError);
      }
      var componentName := Field(args.value, "componentName");
      var details := None;
      if componentName.Some? && componentName.value.JStr? {
        details := registry.GetComponentDetails(componentName.value.s);
      }
      if details.None? {
        return Err(App(NotFoundError("Component", JsString(componentName))));
      }
      return Ok(Details(details.value));
    }

    /** The `validate_tree` case. */
    method CallValidateTree(store: UIStateStore, registry: Components.ComponentRegistry, args: Option<Json>)
      returns (r: Result<ToolResult, Thrown>)
      requires registry.Valid()
      ensures match ValidationOutcome(store.states, registry.entries, args)
        case Err(t) => r == Err(t)
        case Ok(o) => r == Ok(o.result) && o.states == store.states && o.note.None?
    {
      if args.None? || args.value.JNull? {
        return Err(EngineTypeError);
      }
      var validation := ValidateTreeTool.ValidateTree(registry, Field(args.value, "tree"));
      if validation.Err? {
        return Err(EngineTypeError);
      }
      return Ok(Validation(validation.value));
    }

    /** The `modify_ui` case: the edit, then the notification of every client. */
    method CallModifyUI(store: UIStateStore, registry: Components.ComponentRegistry, args: Option<Json>, now: string,
                        throwing: set<Callback>)
      returns (r: Result<ToolResult, Thrown>)
      requires Valid()
      modifies this, store
      ensures Valid() && sseClients == old(sseClients) && order == old(order)
      ensures match ModifyToolOutcome(old(store.states), registry.entries, args, now)
        case Err(t) => r == Err(t) && store.states == old(store.states) && sent == old(sent)
        case Ok(o) => r == Ok(o.result) && store.states == o.states && sent == old(sent) + Deliveries(order, sseClients, o.note)
    {
      if args.None? || args.value.JNull? {
        return Err(EngineTypeError);
      }
      var userId := Field(args.value, "userId");
      if userId.None? || !userId.value.JStr? {
        return Err(EngineTypeError);
      }
      var modified := ModifyUITool.ModifyUI(store, registry, userId.value.s, Field(args.value, "operation"),
                                            Field(args.value, "path"), Field(args.value, "component"),
                                            Field(args.value, "props"), now);
      if modified.Err? {
        return Err(App(modified.error));
      }
      NotifyClients(UiChanged(userId.value.s, modified.value), throwing);
      return Ok(Modified(modified.value));
    }

    /**
     * `handleRequest(request)`: answers with the request's id; an unknown
     * method gets "Method not found", and anything a handler throws is
     * turned into a JSON-RPC error.
     */
    method HandleRequest(store: UIStateStore, registry: Components.ComponentRegistry, id: Json, rpcMethod: string,
                         params: Option<Json>, now: string, throwing: set<Callback>)
      returns (r: McpResponse)
      requires Valid() && registry.Valid()
      modifies this, store
      ensures Valid() && sseClients == old(sseClients) && order == old(order)
      ensures r.id == id
      ensures rpcMethod !in KnownMethods ==>
        r.outcome == Err(McpError(MethodNotFoundCode, "Method not found: " + rpcMethod, None))
        && store.states == old(store.states) && sent == old(sent)
      ensures rpcMethod in KnownMethods ==>
        match RequestOutcome(old(store.states), registry.entries, registry.GetAllComponents(), rpcMethod, params, now)
        case Err(t) => r.outcome == Err(ErrorToMcpError(t)) && store.states == old(store.states) && sent == old(sent)
        case Ok(o) => r.outcome == Ok(o.result) && store.states == o.states
                      && sent == old(sent) + Deliveries(order, sseClients, o.note)
    {
      if rpcMethod !in KnownMethods {
        return McpResponse(id, Err(McpError(MethodNotFoundCode, "Method not found: " + rpcMethod, None)));
      }
      var result: Result<RequestResult, Thrown>;
      if rpcMethod == "tools/call" {
        var called := HandleToolCall(store, registry, params, now, throwing);
        result := if called.Ok? then Ok(ToolContent(called.value)) else Err(called.error);
      } else {
        result := Answer(registry.GetAllComponents(), rpcMethod, params);
      }
      if result.Err? {
        return McpResponse(id, Err(ErrorToMcpError(result.error)));
      }
      return McpResponse(id, Ok(result.value));
    }
  }
}
