/**
 * The `modify_ui` tool of `lib/mcp/tools/modifyUI.ts`: add, remove, update
 * or replace one node of a user's UI tree, then store the new tree under
 * the next version.
 *
 * The source deep-copies the stored tree and mutates the copy in place.
 * The copy shares nothing with anything else, so mutating the node found
 * at a path is the same as rebuilding the tree with a new value at that
 * path; the functions below compute that new tree. An error thrown
 * half-way through discards the copy, so an operation either yields a
 * whole new tree or an error.
 */
module ModifyUITool {
  import opened Wrappers
  import opened Text
  import opened JsonValue
  import opened PathSyntax
  import opened Navigation
  import Components
  import ErrorHandling
  import opened UIStateStorage

  /** The registered component types, by name. */
  type Registry = map<string, Components.ComponentDetails>

  /** Why an operation could not be applied; each case carries what its message names. */
  datatype ApplyError =
    | UnknownComponent(name: Option<Json>)
    | InvalidPath(path: string)
    | NavigationFailed(nav: NavError)
    | InvalidParent(parentPath: string)
    | NoChild(path: string)
    | NoValidNode(path: string)
    | Fault
    | BadArrayLength
    | ComponentRequired(operationName: string)
    | PropsRequired
    | UnknownOperation(operation: Option<Json>)

  /** The `message` of the `Error` each failure throws. */
  function ErrorText(e: ApplyError): string {
    match e
    case UnknownComponent(n) => "Unknown component: " + JsString(n)
    case InvalidPath(p) => "Invalid path for add/remove operation: " + p
    case NavigationFailed(n) => NavMessage(n)
    case InvalidParent(pp) => "Parent at " + pp + " is not a valid UITree node"
    case NoChild(p) => "No child at " + p
    case NoValidNode(p) => "No valid node at " + p
    case Fault => ErrorHandling.TypeErrorMessage
    case BadArrayLength => "Invalid array length"
    case ComponentRequired(op) => "component is required for " + op + " operation"
    case PropsRequired => "props is required for update operation"
    case UnknownOperation(op) => "Unknown operation: " + JsString(op)
  }

  /** The new tree and the description of the change. */
  datatype Applied = Applied(tree: Obj, description: string)

  /** `v && typeof v === 'object' && 'component' in v` (an array has no `component` property). */
  predicate IsNode(v: Option<Json>) {
    v.Some? && v.value.JObj? && "component" in v.value.obj.fields
  }

  /** `hasComponent(component.component)`: the fragment names a registered type; the name is returned. */
  function CheckComponent(entries: Registry, component: Json): (r: Result<string, ApplyError>)
    ensures r.Ok? <==> Components.Registered(entries, Field(component, "component"))
    ensures r.Ok? ==> component.JObj? && Get(component.obj, "component") == Some(JStr(r.value))
    ensures r.Err? ==> r.error == UnknownComponent(Field(component, "component"))
  {
    var name := Field(component, "component");
    if Components.Registered(entries, name) then Ok(name.value.s) else Err(UnknownComponent(name))
  }

  /** The parent found by `navigateToParent`: its path, its keys from the root, the node and the child index. */
  datatype Slot = Slot(parentPath: string, loc: seq<Key>, parent: Obj, index: nat)

  /**
   * `navigateToParent(tree, path)`: split `path` into a parent path and a
   * child index, and find the parent, which must be a node.
   */
  function NavigateToParent(tree: Obj, path: string): (r: Result<Slot, ApplyError>)
    ensures r.Ok? ==> At(JObj(tree), r.value.loc) == Some(JObj(r.value.parent))
    ensures r.Ok? ==> "component" in r.value.parent.fields
    ensures r.Ok? ==> SplitChildSlot(path) == Some((r.value.parentPath, r.value.index))
    ensures SplitChildSlot(path).None? ==> r == Err(InvalidPath(path))
  {
    match SplitChildSlot(path)
    case None => Err(InvalidPath(path))
    case Some((parentPath, index)) =>
      if parentPath == "$" || parentPath == "" then
        if "component" in tree.fields then Ok(Slot(parentPath, [], tree, index))
        else Err(InvalidParent(parentPath))
      else
        match Navigate(tree, parentPath)
        case Err(e) => Err(NavigationFailed(e))
        case Ok(target) =>
          if IsNode(target) then
            NavigateFindsAt(tree, parentPath);
            Ok(Slot(parentPath, PathKeys(parentPath), target.value.obj, index))
          else Err(InvalidParent(parentPath))
  }

  /** The tree with the node at `loc` replaced: what mutating that node of the copy amounts to. */
  function PutNode(tree: Obj, loc: seq<Key>, node: Obj): (r: Obj)
    requires At(JObj(tree), loc).Some?
    ensures At(JObj(r), loc) == Some(JObj(node))
  {
    if loc == [] then node
    else
      AtSetAt(JObj(tree), loc, JObj(node));
      SetAt(JObj(tree), loc, JObj(node)).obj
  }

  /** `children.splice(index, 0, x)`: `x` goes in at `index`, or last when `index` is past the end. */
  function Insert(cs: seq<Json>, index: nat, x: Json): (r: seq<Json>)
    ensures |r| == |cs| + 1
    ensures var at := if index < |cs| then index else |cs|;
      r[at] == x && r[..at] == cs[..at] && r[at + 1..] == cs[at..]
  {
    if index < |cs| then cs[..index] + [x] + cs[index..] else cs + [x]
  }

  /** `children.splice(index, 1)`: the element at `index` goes, the later ones move up by one. */
  function RemoveAt(cs: seq<Json>, index: nat): (r: seq<Json>)
    requires index < |cs|
    ensures |r| == |cs| - 1
    ensures forall j :: 0 <= j < |r| ==> r[j] == (if j < index then cs[j] else cs[j + 1])
  {
    cs[..index] + cs[index + 1..]
  }

  /**
   * The children list an insertion extends: a falsy `children` is first
   * set to `[]`; an array is used as it is; anything else has no `push`
   * or `splice` method.
   */
  function ExtendableChildren(children: Option<Json>): Result<seq<Json>, ApplyError> {
    if !Truthy(children) then Ok([])
    else if children.value.JArr? then Ok(children.value.items)
    else Err(Fault)
  }

  /** `v.length` for a truthy value: a string's or an array's length, an object's own `length` property. */
  function LengthOf(v: Json): Option<Json> {
    match v
    case JStr(s) => Some(JNum(Utf16Length(s)))
    case JArr(items) => Some(JNum(|items|))
    case JObj(o) => Get(o, "length")
    case _ => None
  }

  /** `ToNumber(v)` on the values the model has, `None` standing for NaN. */
  function ToNumber(v: Option<Json>): Option<int> {
    match v
    case None => None
    case Some(JNull) => Some(0)
    case Some(JBool(b)) => Some(if b then 1 else 0)
    case Some(JNum(n)) => Some(n)
    case Some(JStr(s)) => StringToNumber(s)
    case Some(JArr(items)) => StringToNumber(ValueString(JArr(items)))
    case Some(JObj(_)) => None
  }

  /** A string read as a number: blank is 0, a run of decimal digits its value, anything else NaN. */
  function StringToNumber(s: string): Option<int> {
    var t := Trim(s);
    if t == [] then Some(0)
    else if AllDigits(t) then Some(DigitsValue(t))
    else None
  }

  /** `index >= length`: false whenever `length` converts to NaN. */
  predicate LengthExceeded(index: nat, length: Option<Json>) {
    var n := ToNumber(length);
    n.Some? && index >= n.value
  }

  /** `!parent.children || childIndex >= parent.children.length`. */
  predicate NoChildAt(children: Option<Json>, index: nat) {
    !Truthy(children) || LengthExceeded(index, LengthOf(children.value))
  }

  /** `applyAdd`: insert a registered fragment among the root's children or at a child slot. */
  function ApplyAdd(entries: Registry, tree: Obj, path: string, component: Json): Result<Applied, ApplyError> {
    match CheckComponent(entries, component)
    case Err(e) => Err(e)
    case Ok(name) =>
      if path == "$" || path == "$.children" then
        match ExtendableChildren(Get(tree, "children"))
        case Err(e) => Err(e)
        case Ok(cs) => Ok(Applied(Put(tree, "children", JArr(cs + [component])), "Added " + name + " to root children"))
      else
        match NavigateToParent(tree, path)
        case Err(e) => Err(e)
        case Ok(slot) =>
          match ExtendableChildren(Get(slot.parent, "children"))
          case Err(e) => Err(e)
          case Ok(cs) =>
            var parent := Put(slot.parent, "children", JArr(Insert(cs, slot.index, component)));
            Ok(Applied(PutNode(tree, slot.loc, parent), "Added " + name + " at " + path))
  }

  /**
   * `applyRemove`: take out the child at a slot. Only an array has a
   * `splice` method; reading `component` of a `null` child fails.
   */
  function ApplyRemove(tree: Obj, path: string): Result<Applied, ApplyError> {
    match NavigateToParent(tree, path)
    case Err(e) => Err(e)
    case Ok(slot) =>
      var children := Get(slot.parent, "children");
      if NoChildAt(children, slot.index) then Err(NoChild(path))
      else if !children.value.JArr? then Err(Fault)
      else
        var cs := children.value.items;
        var removed := cs[slot.index];
        if removed == JNull then Err(Fault)
        else
          var parent := Put(slot.parent, "children", JArr(RemoveAt(cs, slot.index)));
          Ok(Applied(PutNode(tree, slot.loc, parent), "Removed " + JsString(Field(removed, "component")) + " from " + path))
  }

  /** A key `Object.assign` cannot write on a string of the given length: `length` or one of its indices. */
  predicate ReadOnlyStringKey(k: string, length: nat) {
    k == "length" || exists m :: 0 <= m < length && NatStr(m) == k
  }

  /** A key that names an element of an array: the decimal form, without leading zeros, of an integer below 2^32 - 1. */
  predicate ArrayIndexKey(k: string) {
    AllDigits(k) && NatStr(DigitsValue(k)) == k && DigitsValue(k) < 0xFFFF_FFFF
  }

  /** The length `a.length = v` sets: `v` must convert to a whole number below 2^32, otherwise it is a `RangeError`. */
  function ArrayLength(v: Json): Option<nat> {
    var n := ToNumber(Some(v));
    if n.Some? && 0 <= n.value < 0x1_0000_0000 then Some(n.value) else None
  }

  /** A missing element of an array; JSON renders the holes a longer `length` leaves as `null`. */
  function Kept(items: seq<Json>, j: nat): Json {
    if j < |items| then items[j] else JNull
  }

  /** The array after `a.length = n`: cut to `n` elements, or padded with holes. */
  function Resize(items: seq<Json>, n: nat): (r: seq<Json>)
    ensures |r| == n
    ensures forall j :: 0 <= j < n ==> r[j] == Kept(items, j)
  {
    if n <= |items| then items[..n] else items + seq(n - |items|, _ => JNull)
  }

  /** The array after `a[n] = v`: the element replaced, or the array padded with holes up to the new last element. */
  function SetElement(items: seq<Json>, n: nat, v: Json): (r: seq<Json>)
    ensures |r| == if n < |items| then |items| else n + 1
    ensures forall j :: 0 <= j < |r| ==> r[j] == if j == n then v else Kept(items, j)
  {
    if n < |items| then items[n := v] else items + seq(n - |items|, _ => JNull) + [v]
  }

  /**
   * One write `a[k] = v` of `Object.assign` on an array. Any key other
   * than `length` and an index becomes a named property, which the JSON
   * value of the array does not hold.
   */
  function ArrayWrite(items: seq<Json>, k: string, v: Json): Result<seq<Json>, ApplyError> {
    if k == "length" then
      match ArrayLength(v)
      case None => Err(BadArrayLength)
      case Some(n) => Ok(Resize(items, n))
    else if ArrayIndexKey(k) then Ok(SetElement(items, DigitsValue(k), v))
    else Ok(items)
  }

  /** `Object.assign(array, source)` over the keys `ks` of the source, in order; a bad length stops it. */
  function AssignArray(items: seq<Json>, source: Obj, ks: seq<string>): Result<seq<Json>, ApplyError>
    decreases |ks|
  {
    if ks == [] then Ok(items)
    else if ks[0] !in source.fields then AssignArray(items, source, ks[1..])
    else
      match ArrayWrite(items, ks[0], source.fields[ks[0]])
      case Err(e) => Err(e)
      case Ok(next) => AssignArray(next, source, ks[1..])
  }

  /**
   * `Object.assign(target.props, props)` after a falsy `props` was set to
   * `{}`: the new props value, `None` when the props value is a primitive
   * that the copy does not change. An object takes the entries; an array
   * takes the index and `length` writes.
   */
  function MergeProps(current: Option<Json>, source: Obj): Result<Option<Json>, ApplyError> {
    if !Truthy(current) then Ok(Some(JObj(Assign(EmptyObj, source))))
    else
      match current.value
      case JObj(po) => Ok(Some(JObj(Assign(po, source))))
      case JArr(items) =>
        (match AssignArray(items, source, source.keys)
         case Err(e) => Err(e)
         case Ok(r) => Ok(Some(JArr(r))))
      case JStr(s) =>
        if exists k :: k in source.keys && ReadOnlyStringKey(k, Utf16Length(s)) then Err(Fault) else Ok(None)
      case _ => Ok(None)
  }

  /** The node `applyUpdate` edits: the root for `$`, otherwise what `navigateToPath` reaches, with its keys. */
  function UpdateTarget(tree: Obj, path: string): (r: Result<(seq<Key>, Option<Json>), ApplyError>)
    ensures r.Ok? && r.value.1.Some? ==> At(JObj(tree), r.value.0) == r.value.1
  {
    if path == "$" then Ok(([], Some(JObj(tree))))
    else
      match Navigate(tree, path)
      case Err(e) => Err(NavigationFailed(e))
      case Ok(t) =>
        if t.Some? then NavigateFindsAt(tree, path); Ok((PathKeys(path), t))
        else Ok((PathKeys(path), t))
  }

  /** `applyUpdate`: merge the given props into the props of the node at `path`. */
  function ApplyUpdate(tree: Obj, path: string, props: Json): Result<Applied, ApplyError> {
    match UpdateTarget(tree, path)
    case Err(e) => Err(e)
    case Ok((loc, target)) =>
      if !IsNode(target) then Err(NoValidNode(path))
      else
        var node := target.value.obj;
        var source := AsSource(props);
        match MergeProps(Get(node, "props"), source)
        case Err(e) => Err(e)
        case Ok(merged) =>
          var updated := if merged.Some? then Put(node, "props", merged.value) else node;
          Ok(Applied(PutNode(tree, loc, updated),
            "Updated " + JsString(Get(node, "component")) + " props: " + Join(source.keys, ", ")))
  }

  /**
   * `applyReplace`: at `$` copy the fragment's fields over the root's;
   * elsewhere put the fragment in the child slot. Reading `component` of
   * a missing or `null` child fails, and so does writing an index of a
   * string.
   */
  function ApplyReplace(entries: Registry, tree: Obj, path: string, component: Json): Result<Applied, ApplyError> {
    match CheckComponent(entries, component)
    case Err(e) => Err(e)
    case Ok(name) =>
      if path == "$" then Ok(Applied(Assign(tree, AsSource(component)), "Replaced root with " + name))
      else
        match NavigateToParent(tree, path)
        case Err(e) => Err(e)
        case Ok(slot) =>
          var children := Get(slot.parent, "children");
          var i := slot.index;
          if NoChildAt(children, i) then Err(NoChild(path))
          else
            match children.value
            case JArr(cs) =>
              if cs[i] == JNull then Err(Fault)
              else
                var parent := Put(slot.parent, "children", JArr(cs[i := component]));
                Ok(Applied(PutNode(tree, slot.loc, parent),
                  "Replaced " + JsString(Field(cs[i], "component")) + " with " + name + " at " + path))
            case JObj(co) =>
              var previous := Get(co, NatStr(i));
              if previous.None? || previous.value == JNull then Err(Fault)
              else
                var parent := Put(slot.parent, "children", JObj(Put(co, NatStr(i), component)));
                Ok(Applied(PutNode(tree, slot.loc, parent),
                  "Replaced " + JsString(Field(previous.value, "component")) + " with " + name + " at " + path))
            case _ => Err(Fault)
  }

  /** `path.match` or `navigateToPath(tree, path)` on a path that is not a string fails. */
  function PathText(path: Option<Json>): Option<string> {
    if path.Some? && path.value.JStr? then Some(path.value.s) else None
  }

  /** The `switch (operation)` of `modifyUI`, with the argument checks of each case. */
  function ApplyOperation(entries: Registry, tree: Obj, operation: Option<Json>, path: Option<Json>,
                          component: Option<Json>, props: Option<Json>): Result<Applied, ApplyError>
  {
    var p := PathText(path);
    if operation == Some(JStr("add")) then
      if !Truthy(component) then Err(ComponentRequired("add"))
      else if p.Some? then ApplyAdd(entries, tree, p.value, component.value)
      else
        match CheckComponent(entries, component.value)
        case Err(e) => Err(e)
        case Ok(_) => Err(Fault)
    else if operation == Some(JStr("remove")) then
      if p.Some? then ApplyRemove(tree, p.value) else Err(Fault)
    else if operation == Some(JStr("update")) then
      if !Truthy(props) then Err(PropsRequired)
      else if p.Some? then ApplyUpdate(tree, p.value, props.value)
      else Err(Fault)
    else if operation == Some(JStr("replace")) then
      if !Truthy(component) then Err(ComponentRequired("replace"))
      else if p.Some? then ApplyReplace(entries, tree, p.value, component.value)
      else
        match CheckComponent(entries, component.value)
        case Err(e) => Err(e)
        case Ok(_) => Err(Fault)
    else Err(UnknownOperation(operation))
  }

  /** The result `modifyUI` returns on success. */
  datatype ModifyUIResult = ModifyUIResult(success: bool, newTree: Obj, description: string)

  /** Every failure inside the `switch` is rethrown as a `ValidationError` naming the operation. */
  function Failure(operation: Option<Json>, e: ApplyError): ErrorHandling.AppError {
    ErrorHandling.ValidationError("Failed to apply " + JsString(operation) + ": " + ErrorText(e), None)
  }

  /**
   * What `modifyUI` answers and which states it leaves behind: a user
   * without a stored state is not found; otherwise the outcome of the
   * operation on the user's tree is settled by `Settle`.
   */
  function ModifyOutcome(states: map<string, UIState>, entries: Registry, userId: string,
                         operation: Option<Json>, path: Option<Json>, component: Option<Json>, props: Option<Json>,
                         now: string): (Result<ModifyUIResult, ErrorHandling.AppError>, map<string, UIState>)
  {
    if userId !in states then (Err(ErrorHandling.NotFoundError("User", userId)), states)
    else Settle(states, userId, operation, ApplyOperation(entries, states[userId].tree, operation, path, component, props), now)
  }

  /**
   * An operation that failed leaves the states as they were; a successful
   * one stores the new tree under the next version, stamped with `now`.
   */
  function Settle(states: map<string, UIState>, userId: string, operation: Option<Json>,
                  outcome: Result<Applied, ApplyError>, now: string)
    : (Result<ModifyUIResult, ErrorHandling.AppError>, map<string, UIState>)
    requires userId in states
  {
    match outcome
    case Err(e) => (Err(Failure(operation, e)), states)
    case Ok(a) =>
      (Ok(ModifyUIResult(true, a.tree, a.description)),
       states[userId := UIState(states[userId].version + 1, userId, a.tree, now)])
  }

  /** `modifyUI(params)` on the store. */
  method ModifyUI(store: UIStateStore, registry: Components.ComponentRegistry, userId: string,
                  operation: Option<Json>, path: Option<Json>, component: Option<Json>, props: Option<Json>,
                  now: string)
    returns (r: Result<ModifyUIResult, ErrorHandling.AppError>)
    modifies store
    ensures (r, store.states) == ModifyOutcome(old(store.states), registry.entries, userId, operation, path, component, props, now)
  {
    var currentState := store.GetUserUIState(userId);
    if currentState.None? {
      return Err(ErrorHandling.NotFoundError("User", userId));
    }
    var current := currentState.value;
    var outcome := ApplyOperation(registry.entries, current.tree, operation, path, component, props);
    r := Commit(store, userId, current, operation, outcome, now);
  }

  /** The end of `modifyUI`: rethrow a failure, or save the new tree and report it. */
  method Commit(store: UIStateStore, userId: string, current: UIState, operation: Option<Json>,
                outcome: Result<Applied, ApplyError>, now: string)
    returns (r: Result<ModifyUIResult, ErrorHandling.AppError>)
    requires userId in store.states && store.states[userId] == current
    modifies store
    ensures (r, store.states) == Settle(old(store.states), userId, operation, outcome, now)
  {
    if outcome.Err? {
      return Err(Failure(operation, outcome.error));
    }
    var applied := outcome.value;
    store.SaveUserUIState(userId, UIState(current.version + 1, userId, applied.tree, now));
    return Ok(ModifyUIResult(true, applied.tree, applied.description));
  }
}
