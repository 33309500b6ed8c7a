/**
 * The `/api/ui/state` HTTP handlers of `app/api/ui/state/route.ts`. `GET`
 * looks a user's state up; `PUT` replaces it under optimistic locking:
 * after a series of request checks it compares the caller's version with
 * the stored one and, only when they match, stores the new tree with the
 * version raised by one. `PutOutcome` and `GetOutcome` say what the
 * handlers answer and what the store holds afterwards; the methods do it
 * step by step against a `UIStateStore`.
 */
module UIStateRoute {
  import opened Wrappers
  import opened JsonValue
  import opened UIStateStorage

  /** The handlers' JSON answers: a stored record (200), `{error}` with a status, or a version conflict (409). */
  datatype Response =
    | StateBody(state: UIState)
    | ErrorBody(status: int, error: string)
    | ConflictBody(currentVersion: int, providedVersion: int)

  function Status(r: Response): int {
    match r
    case StateBody(_) => 200
    case ErrorBody(status, _) => status
    case ConflictBody(_, _) => 409
  }

  const NotFoundMessage := "User state not found"
  const PutFailedMessage := "Failed to update UI state"

  // ----- GET -----

  /** `searchParams.get('userId') || 'default'`. */
  function QueryUser(param: Option<string>): (userId: string)
    ensures param.Some? && param.value != "" ==> userId == param.value
    ensures param.None? || param.value == "" ==> userId == "default"
  {
    if param.Some? && param.value != "" then param.value else "default"
  }

  /** What `GET` answers: the user's stored record, or 404. */
  function GetOutcome(states: map<string, UIState>, param: Option<string>): (r: Response)
    ensures r.StateBody? <==> QueryUser(param) in states
    ensures r.StateBody? ==> r.state == states[QueryUser(param)]
    ensures !r.StateBody? ==> r == ErrorBody(404, NotFoundMessage)
  {
    var userId := QueryUser(param);
    if userId in states then StateBody(states[userId]) else ErrorBody(404, NotFoundMessage)
  }

  method HandleGet(store: UIStateStore, param: Option<string>) returns (r: Response)
    ensures r == GetOutcome(store.states, param)
  {
    var userId := if param.Some? && param.value != "" then param.value else "default";
    var state := store.GetUserUIState(userId);
    if state.None? {
      return ErrorBody(404, NotFoundMessage);
    }
    return StateBody(state.value);
  }

  // ----- PUT -----

  /** A request that passed the checks: the user, the version it was read at, and the new tree. */
  datatype PutRequest = PutRequest(userId: string, version: int, tree: Obj)

  /**
   * The checks `PUT` makes before touching the store. An unreadable body
   * and a `null` body (destructuring it throws) give 500; a falsy `userId`,
   * a `version` that is not a number, or a tree without a truthy
   * `component` give 400. A truthy `userId` that is not a string makes the
   * storage path throw, which gives 500 too.
   */
  function CheckPut(body: Option<Json>): (r: Result<PutRequest, Response>)
    ensures r.Err? ==> r.error.ErrorBody? && r.error.status in {400, 500}
    ensures r.Ok? <==>
      body.Some? && var userId := Field(body.value, "userId"); var tree := Field(body.value, "tree");
      userId.Some? && userId.value.JStr? && userId.value.s != ""
      && Field(body.value, "version").Some? && Field(body.value, "version").value.JNum?
      && tree.Some? && tree.value.JObj? && Truthy(Get(tree.value.obj, "component"))
    ensures r.Ok? ==>
      r.value == PutRequest(Field(body.value, "userId").value.s, Field(body.value, "version").value.n,
                            Field(body.value, "tree").value.obj)
  {
    if body.None? || body.value.JNull? then Err(ErrorBody(500, PutFailedMessage))
    else
      var userId := Field(body.value, "userId");
      var version := Field(body.value, "version");
      var tree := Field(body.value, "tree");
      if !Truthy(userId) then Err(ErrorBody(400, "userId is required"))
      else if version.None? || !version.value.JNum? then Err(ErrorBody(400, "version is required and must be a number"))
      else if !Truthy(tree) || !Truthy(Field(tree.value, "component")) then
        Err(ErrorBody(400, "tree is required and must have a component"))
      else if !userId.value.JStr? then Err(ErrorBody(500, PutFailedMessage))
      else Ok(PutRequest(userId.value.s, version.value.n, tree.value.obj))
  }

  /** What `PUT` answers and what the store holds afterwards; `now` is the request's timestamp. */
  function PutOutcome(states: map<string, UIState>, body: Option<Json>, now: string): (Response, map<string, UIState>) {
    match CheckPut(body)
    case Err(resp) => (resp, states)
    case Ok(req) =>
      if req.userId !in states then (ErrorBody(404, NotFoundMessage), states)
      else if states[req.userId].version != req.version then
        (ConflictBody(states[req.userId].version, req.version), states)
      else
        var saved := UIState(req.version + 1, req.userId, req.tree, now);
        (StateBody(saved), states[req.userId := saved])
  }

  method HandlePut(store: UIStateStore, body: Option<Json>, now: string) returns (r: Response)
    modifies store
    ensures (r, store.states) == PutOutcome(old(store.states), body, now)
  {
    if body.None? || body.value.JNull? {
      return ErrorBody(500, PutFailedMessage);
    }
    var userId := Field(body.value, "userId");
    var version := Field(body.value, "version");
    var tree := Field(body.value, "tree");
    if !Truthy(userId) {
      return ErrorBody(400, "userId is required");
    }
    if version.None? || !version.value.JNum? {
      return ErrorBody(400, "version is required and must be a number");
    }
    if !Truthy(tree) || !Truthy(Field(tree.value, "component")) {
      return ErrorBody(400, "tree is required and must have a component");
    }
    if !userId.value.JStr? {
      return ErrorBody(500, PutFailedMessage);
    }
    var current := store.GetUserUIState(userId.value.s);
    if current.None? {
      return ErrorBody(404, NotFoundMessage);
    }
    if current.value.version != version.value.n {
      return ConflictBody(current.value.version, version.value.n);
    }
    var newState := UIState(version.value.n + 1, userId.value.s, tree.value.obj, now);
    store.SaveUserUIState(userId.value.s, newState);
    return StateBody(newState);
  }

  // ----- Properties -----

  /**
   * `PUT` writes only when it answers 200, and then exactly the user's
   * record: the supplied tree, the caller's version plus one, which was
   * the stored version.
   */
  lemma PutWritesOnlyOnSuccess(states: map<string, UIState>, body: Option<Json>, now: string)
    ensures var (r, after) := PutOutcome(states, body, now);
      (Status(r) == 200 <==> r.StateBody?)
      && (!r.StateBody? ==> after == states)
      && (r.StateBody? ==>
        var req := CheckPut(body).value;
        req.userId in states && states[req.userId].version == req.version
        && r.state == UIState(states[req.userId].version + 1, req.userId, req.tree, now)
        && after == states[req.userId := r.state])
  { }

  /** A version mismatch answers 409 with both versions and leaves the store as it was. */
  lemma StaleVersionConflicts(states: map<string, UIState>, body: Option<Json>, now: string)
    requires CheckPut(body).Ok? && CheckPut(body).value.userId in states
    requires states[CheckPut(body).value.userId].version != CheckPut(body).value.version
    ensures PutOutcome(states, body, now)
      == (ConflictBody(states[CheckPut(body).value.userId].version, CheckPut(body).value.version), states)
  { }

  /**
   * Two writers that read the same version: once the first succeeds, the
   * second is refused with 409, told the new version, and its tree is not
   * stored.
   */
  lemma SecondWriterConflicts(states: map<string, UIState>, first: Option<Json>, second: Option<Json>, t1: string,
                              t2: string)
    requires CheckPut(first).Ok? && CheckPut(second).Ok?
    requires CheckPut(first).value.userId == CheckPut(second).value.userId
    requires CheckPut(first).value.version == CheckPut(second).value.version
    requires PutOutcome(states, first, t1).0.StateBody?
    ensures var mid := PutOutcome(states, first, t1).1;
      PutOutcome(mid, second, t2) == (ConflictBody(CheckPut(second).value.version + 1, CheckPut(second).value.version), mid)
  {
    PutWritesOnlyOnSuccess(states, first, t1);
  }

  /** After a successful `PUT`, `GET` for that user answers with the record `PUT` returned. */
  lemma GetAfterPut(states: map<string, UIState>, body: Option<Json>, now: string)
    requires PutOutcome(states, body, now).0.StateBody?
    ensures var (r, after) := PutOutcome(states, body, now);
      GetOutcome(after, Some(CheckPut(body).value.userId)) == r
  {
    PutWritesOnlyOnSuccess(states, body, now);
  }

  /** A rejected request (400 or 500) never reaches the store, whatever it holds. */
  lemma RejectedBeforeStore(states: map<string, UIState>, body: Option<Json>, now: string)
    requires CheckPut(body).Err?
    ensures PutOutcome(states, body, now) == (CheckPut(body).error, states)
    ensures Status(CheckPut(body).error) == 400 || Status(CheckPut(body).error) == 500
  { }
}
