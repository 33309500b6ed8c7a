/**
 * The `validate_tree` tool of `lib/mcp/tools/validateTree.ts`: the
 * registry scan's messages turned into located errors, followed by a
 * structural walk (`validateNode`) that checks each node's `component`,
 * `props` and `children` against the registered details. The walk appends
 * to one error list while it recurses; `NodeErrors` is what it appends.
 */
module ValidateTreeTool {
  import opened Wrappers
  import opened Text
  import opened JsonValue
  import opened Components

  /** One reported problem: where, what, and optionally how to fix it. */
  datatype TreeError = TreeError(path: string, message: string, suggestion: Option<string>)

  datatype ValidationResult = ValidationResult(valid: bool, errors: seq<TreeError>)

  const RegistryHint := "Check available components using get_component_details"
  const NoComponentMessage := "Node must have a \"component\" string property"
  const PropsNotObjectMessage := "Props must be an object"
  const ChildrenNotArrayMessage := "Children must be an array"
  const LeafHint := "Remove children or use a container component"

  /** `error.split(' at ')[1] || '$'`: the text between the first and the second " at ". */
  function ScanErrorPath(message: string): string {
    var pieces := SplitOn(message, " at ");
    if |pieces| > 1 && pieces[1] != "" then pieces[1] else "$"
  }

  /** A registry-scan message as a located error with the fixed suggestion. */
  function ScanError(message: string): TreeError {
    TreeError(ScanErrorPath(message), message, Some(RegistryHint))
  }

  function ScanErrors(messages: seq<string>): (r: seq<TreeError>)
    ensures |r| == |messages|
    ensures forall i :: 0 <= i < |messages| ==> r[i] == ScanError(messages[i])
  {
    seq(|messages|, i requires 0 <= i < |messages| => ScanError(messages[i]))
  }

  /** The declared prop names of a component, in declaration order. */
  function PropNames(details: ComponentDetails): (names: seq<string>)
    ensures |names| == |details.props|
    ensures forall i :: 0 <= i < |details.props| ==> names[i] == details.props[i].name
  {
    seq(|details.props|, i requires 0 <= i < |details.props| => details.props[i].name)
  }

  /** A truthy string `component`: `!node.component || typeof node.component !== 'string'` fails. */
  predicate HasComponentName(node: Json) {
    var c := Field(node, "component");
    Truthy(c) && c.value.JStr?
  }

  /** One error per undeclared prop name, in the props object's key order. */
  function UnknownPropErrors(details: ComponentDetails, name: string, keys: seq<string>, path: string): seq<TreeError>
    decreases |keys|
  {
    if keys == [] then []
    else
      (if keys[0] in PropNames(details) then []
       else [TreeError(path + ".props." + keys[0], "Unknown prop \"" + keys[0] + "\" for component " + name,
                       Some("Valid props: " + Join(PropNames(details), ", ")))])
      + UnknownPropErrors(details, name, keys[1..], path)
  }

  /**
   * The props check: nothing for falsy props; one error for props that are
   * not a plain object; otherwise the undeclared names. Required props are
   * not checked.
   */
  function PropErrors(details: ComponentDetails, name: string, props: Option<Json>, path: string): seq<TreeError> {
    if !Truthy(props) then []
    else if !props.value.JObj? then [TreeError(path + ".props", PropsNotObjectMessage, None)]
    else UnknownPropErrors(details, name, props.value.obj.keys, path)
  }

  /**
   * `validateNode(node, path, errors)`: what the walk appends for `node`.
   * The registry scan has gone over the tree first without throwing, so
   * the node is scannable.
   */
  function NodeErrors(entries: map<string, ComponentDetails>, node: Json, path: string): seq<TreeError>
    requires Scannable(node)
    decreases node, 2
  {
    if !HasComponentName(node) then [TreeError(path, NoComponentMessage, None)]
    else
      var name := node.obj.fields["component"].s;
      if name !in entries then []
      else
        PropErrors(entries[name], name, Get(node.obj, "props"), path)
        + ChildListErrors(entries, entries[name], name, path, node)
  }

  /**
   * The children check: nothing for falsy children; one error for children
   * that are not an array, or for a non-empty list under a component that
   * takes none; otherwise the errors of each child in order.
   */
  function ChildListErrors(entries: map<string, ComponentDetails>, details: ComponentDetails, name: string, path: string,
                           node: Json): seq<TreeError>
    requires Scannable(node) && node.JObj?
    decreases node, 1
  {
    var children := Get(node.obj, "children");
    if !Truthy(children) then []
    else
      match children.value
      case JArr(cs) =>
        if !details.canHaveChildren && |cs| > 0 then
          [TreeError(path + ".children", "Component " + name + " cannot have children", Some(LeafHint))]
        else ChildrenErrors(entries, cs, path, 0, node)
      case _ => [TreeError(path + ".children", ChildrenNotArrayMessage, None)]
  }

  /** `node.children.forEach((child, index) => validateNode(child, `${path}.children[${index}]`, errors))`. */
  function ChildrenErrors(entries: map<string, ComponentDetails>, cs: seq<Json>, path: string, from: nat, ghost parent: Json)
    : seq<TreeError>
    requires forall i :: 0 <= i < |cs| ==> cs[i] < parent && Scannable(cs[i])
    decreases parent, 0, |cs| - from
  {
    if from >= |cs| then []
    else NodeErrors(entries, cs[from], ChildPath(path, from)) + ChildrenErrors(entries, cs, path, from + 1, parent)
  }

  /**
   * `validateTree({tree})`: the scan's messages first, then the walk's
   * errors; valid exactly when there are none. The scan throws for a
   * missing tree, a `null` node or truthy `children` that are not an
   * array.
   */
  function Validate(entries: map<string, ComponentDetails>, tree: Option<Json>): (r: Result<ValidationResult, EngineFault>)
    ensures r.Ok? <==> tree.Some? && Scannable(tree.value)
    ensures r.Ok? ==> (r.value.valid <==> r.value.errors == [])
    ensures r.Ok? ==> var messages := Scan(entries, tree.value, "$").value;
      |messages| <= |r.value.errors|
      && forall i :: 0 <= i < |messages| ==>
        r.value.errors[i].message == messages[i] && r.value.errors[i].suggestion == Some(RegistryHint)
  {
    if tree.None? then Err(TypeError)
    else
      match Scan(entries, tree.value, "$")
      case Err(e) => Err(e)
      case Ok(messages) =>
        var errors := ScanErrors(messages) + NodeErrors(entries, tree.value, "$");
        Ok(ValidationResult(|errors| == 0, errors))
  }

  /** `canBeChildOf(child, parent)`. */
  function CanBeChildOf(entries: map<string, ComponentDetails>, child: string, parent: string): bool {
    child in entries && parent in entries && entries[parent].canHaveChildren
  }

  // ----- The walk as the source writes it -----

  /** `validateTree`: a loop converting the scan's messages, then the walk. */
  method ValidateTree(registry: ComponentRegistry, tree: Option<Json>) returns (r: Result<ValidationResult, EngineFault>)
    requires registry.Valid()
    ensures r == Validate(registry.entries, tree)
  {
    var scanned := ValidateTreeComponents(registry, tree);
    if scanned.Err? {
      return Err(scanned.error);
    }
    var messages := scanned.value;
    var errors: seq<TreeError> := [];
    for i := 0 to |messages|
      invariant errors == ScanErrors(messages[..i])
    {
      errors := errors + [ScanError(messages[i])];
      assert messages[..i + 1] == messages[..i] + [messages[i]];
    }
    assert messages[..|messages|] == messages;
    errors := ValidateNode(registry.entries, tree.value, "$", errors);
    return Ok(ValidationResult(|errors| == 0, errors));
  }

  /** `validateNode(node, path, errors)`: appends the node's errors to `errors`. */
  method ValidateNode(entries: map<string, ComponentDetails>, node: Json, path: string, errors: seq<TreeError>)
    returns (r: seq<TreeError>)
    requires Scannable(node)
    ensures r == errors + NodeErrors(entries, node, path)
    decreases node, 2
  {
    if !HasComponentName(node) {
      return errors + [TreeError(path, NoComponentMessage, None)];
    }
    var name := node.obj.fields["component"].s;
    if name !in entries {
      return errors;
    }
    var details := entries[name];
    var acc := errors + PropErrors(details, name, Get(node.obj, "props"), path);
    r := ValidateChildList(entries, details, name, path, node, acc);
  }

  /** The children part of `validateNode`. */
  method ValidateChildList(entries: map<string, ComponentDetails>, details: ComponentDetails, name: string, path: string,
                           node: Json, errors: seq<TreeError>)
    returns (r: seq<TreeError>)
    requires Scannable(node) && node.JObj?
    ensures r == errors + ChildListErrors(entries, details, name, path, node)
    decreases node, 1
  {
    var children := Get(node.obj, "children");
    if !Truthy(children) {
      return errors;
    }
    if !children.value.JArr? {
      return errors + [TreeError(path + ".children", ChildrenNotArrayMessage, None)];
    }
    var cs := children.value.items;
    if !details.canHaveChildren && |cs| > 0 {
      return errors + [TreeError(path + ".children", "Component " + name + " cannot have children", Some(LeafHint))];
    }
    r := ValidateChildren(entries, cs, path, errors, node);
  }

  /** The `forEach` over the children, in order. */
  method ValidateChildren(entries: map<string, ComponentDetails>, cs: seq<Json>, path: string, errors: seq<TreeError>,
                          ghost parent: Json)
    returns (r: seq<TreeError>)
    requires forall i :: 0 <= i < |cs| ==> cs[i] < parent && Scannable(cs[i])
    ensures r == errors + ChildrenErrors(entries, cs, path, 0, parent)
    decreases parent, 0
  {
    r := errors;
    ghost var whole := ChildrenErrors(entries, cs, path, 0, parent);
    var i := 0;
    while i < |cs|
      invariant 0 <= i <= |cs|
      invariant r + ChildrenErrors(entries, cs, path, i, parent) == errors + whole
    {
      ghost var before := r;
      ghost var rest := ChildrenErrors(entries, cs, path, i + 1, parent);
      r := ValidateNode(entries, cs[i], ChildPath(path, i), r);
      assert r + rest == before + (NodeErrors(entries, cs[i], ChildPath(path, i)) + rest);
      i := i + 1;
    }
    assert r + [] == r;
  }
}
