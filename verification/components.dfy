/**
 * The component registry of `components.ts`: the catalogue of component
 * types the UI tree may use, kept in a map that preserves insertion order,
 * and the pre-order scan `validateTreeComponents` that reports unknown
 * component names and leaf components that were given children.
 */
module Components {
  import opened Wrappers
  import opened Text
  import opened JsonValue

  datatype Category = Layout | Input | Display | Todo

  /** A declared property of a component type; descriptions are not modelled. */
  datatype PropDefinition = PropDefinition(name: string, propType: string, required: bool, defaultValue: Option<Json>)

  /** A component type; descriptions and examples are not modelled. */
  datatype ComponentDetails = ComponentDetails(
    name: string,
    category: Category,
    canHaveChildren: bool,
    props: seq<PropDefinition>)

  /** The `prop(name, type, required, description, defaultValue)` helper, without the description. */
  function Prop(name: string, propType: string, required: bool, defaultValue: Option<Json>): PropDefinition {
    PropDefinition(name, propType, required, defaultValue)
  }

  const ClassName := Prop("className", "string", false, None)

  /** The seventeen built-in component types, in the order they are registered. */
  function BuiltIns(): seq<ComponentDetails> {
    [ContainerDetails, CardDetails, DividerDetails, TextInputDetails,
     CheckboxDetails, SelectDetails, DatePickerDetails, ButtonDetails,
     TextDetails, BadgeDetails, IconDetails, TodoAppDetails, TaskListDetails,
     TaskItemDetails, TaskInputDetails, TaskFilterDetails, TaskStatsDetails]
  }

  const ContainerDetails := ComponentDetails("Container", Layout, true, [
      Prop("direction", "'row' | 'column'", false, Some(JStr("column"))),
      Prop("gap", "number", false, Some(JNum(16))),
      Prop("padding", "number", false, Some(JNum(0))),
      ClassName])

  const CardDetails := ComponentDetails("Card", Layout, true, [
      Prop("title", "string", false, None),
      Prop("padding", "number", false, Some(JNum(16))),
      ClassName])

  const DividerDetails := ComponentDetails("Divider", Layout, false, [
      Prop("orientation", "'horizontal' | 'vertical'", false, Some(JStr("horizontal"))),
      ClassName])

  const TextInputDetails := ComponentDetails("TextInput", Input, false, [
      Prop("value", "string", false, Some(JStr(""))),
      Prop("placeholder", "string", false, None),
      Prop("onChange", "(value: string) => void", false, None),
      Prop("disabled", "boolean", false, Some(JBool(false))),
      ClassName])

  const CheckboxDetails := ComponentDetails("Checkbox", Input, false, [
      Prop("checked", "boolean", false, Some(JBool(false))),
      Prop("label", "string", false, None),
      Prop("onChange", "(checked: boolean) => void", false, None),
      Prop("disabled", "boolean", false, Some(JBool(false))),
      ClassName])

  const SelectDetails := ComponentDetails("Select", Input, false, [
      Prop("value", "string", false, None),
      Prop("options", "Array<{value: string, label: string}>", true, None),
      Prop("onChange", "(value: string) => void", false, None),
      Prop("placeholder", "string", false, None),
      Prop("disabled", "boolean", false, Some(JBool(false))),
      ClassName])

  const DatePickerDetails := ComponentDetails("DatePicker", Input, false, [
      Prop("value", "string", false, None),
      Prop("onChange", "(date: string) => void", false, None),
      Prop("min", "string", false, None),
      Prop("max", "string", false, None),
      Prop("disabled", "boolean", false, Some(JBool(false))),
      ClassName])

  const ButtonDetails := ComponentDetails("Button", Input, false, [
      Prop("label", "string", true, None),
      Prop("onClick", "() => void", false, None),
      Prop("variant", "'primary' | 'secondary' | 'danger' | 'ghost'", false, Some(JStr("primary"))),
      Prop("size", "'sm' | 'md' | 'lg'", false, Some(JStr("md"))),
      Prop("disabled", "boolean", false, Some(JBool(false))),
      ClassName])

  const TextDetails := ComponentDetails("Text", Display, false, [
      Prop("content", "string", true, None),
      Prop("variant", "'body' | 'heading' | 'caption' | 'label'", false, Some(JStr("body"))),
      Prop("bold", "boolean", false, Some(JBool(false))),
      Prop("muted", "boolean", false, Some(JBool(false))),
      ClassName])

  const BadgeDetails := ComponentDetails("Badge", Display, false, [
      Prop("label", "string", true, None),
      Prop("variant", "'default' | 'success' | 'warning' | 'error' | 'info'", false, Some(JStr("default"))),
      ClassName])

  const IconDetails := ComponentDetails("Icon", Display, false, [
      Prop("name", "string", true, None),
      Prop("size", "number", false, Some(JNum(20))),
      ClassName])

  const TodoAppDetails := ComponentDetails("TodoApp", Todo, true, [
      Prop("title", "string", false, Some(JStr("Todo"))),
      Prop("showStats", "boolean", false, Some(JBool(false))),
      ClassName])

  const TaskListDetails := ComponentDetails("TaskList", Todo, true, [
      Prop("filter", "'all' | 'active' | 'completed'", false, Some(JStr("all"))),
      Prop("sortBy", "'createdAt' | 'dueDate' | 'priority'", false, Some(JStr("createdAt"))),
      Prop("sortOrder", "'asc' | 'desc'", false, Some(JStr("desc"))),
      ClassName])

  const TaskItemDetails := ComponentDetails("TaskItem", Todo, false, [
      Prop("task", "Task", true, None),
      Prop("onToggle", "(id: string) => void", true, None),
      Prop("onDelete", "(id: string) => void", true, None),
      Prop("showDueDate", "boolean", false, Some(JBool(false))),
      Prop("showPriority", "boolean", false, Some(JBool(false))),
      Prop("showNotes", "boolean", false, Some(JBool(false))),
      ClassName])

  const TaskInputDetails := ComponentDetails("TaskInput", Todo, false, [
      Prop("placeholder", "string", false, Some(JStr("What needs to be done?"))),
      Prop("onSubmit", "(title: string) => void", false, None),
      Prop("showPriorityPicker", "boolean", false, Some(JBool(false))),
      Prop("showDueDatePicker", "boolean", false, Some(JBool(false))),
      ClassName])

  const TaskFilterDetails := ComponentDetails("TaskFilter", Todo, false, [
      Prop("current", "'all' | 'active' | 'completed'", false, Some(JStr("all"))),
      Prop("onChange", "(filter: 'all' | 'active' | 'completed') => void", false, None),
      ClassName])

  const TaskStatsDetails := ComponentDetails("TaskStats", Todo, false, [
      Prop("totalCount", "number", false, None),
      Prop("completedCount", "number", false, None),
      Prop("activeCount", "number", false, None),
      ClassName])

  function Names(ds: seq<ComponentDetails>): (ns: seq<string>)
    ensures |ns| == |ds|
    ensures forall i :: 0 <= i < |ds| ==> ns[i] == ds[i].name
  {
    seq(|ds|, i requires 0 <= i < |ds| => ds[i].name)
  }

  predicate Distinct(ns: seq<string>) {
    forall i, j :: 0 <= i < j < |ns| ==> ns[i] != ns[j]
  }

  /** The built-in names are distinct, so none of the seventeen registrations overwrites another. */
  lemma BuiltInNamesDistinct()
    ensures Distinct(Names(BuiltIns()))
    ensures |BuiltIns()| == 17
  {
    BuiltInNamesListed();
    BuiltInNameListDistinct();
  }

  /** The names of the built-in component types, in registration order. */
  const BuiltInNames: seq<string> := ["Container", "Card", "Divider", "TextInput", "Checkbox", "Select", "DatePicker",
    "Button", "Text", "Badge", "Icon", "TodoApp", "TaskList", "TaskItem", "TaskInput", "TaskFilter", "TaskStats"]

  lemma BuiltInNamesListed()
    ensures Names(BuiltIns()) == BuiltInNames
  {
  }

  lemma BuiltInNameListDistinct()
    ensures Distinct(BuiltInNames)
  {
  }

  /** Exactly the layout containers and the two todo containers accept children. */
  lemma BuiltInContainers()
    ensures forall i :: 0 <= i < |BuiltIns()| ==>
      (BuiltIns()[i].canHaveChildren <==> BuiltIns()[i].name in {"Container", "Card", "TodoApp", "TaskList"})
  {
  }

  /** Every built-in component type declares `className`, optional and without a default. */
  lemma BuiltInClassName()
    ensures forall i :: 0 <= i < |BuiltIns()| ==> ClassName in BuiltIns()[i].props
  {
    var ds := BuiltIns();
    forall i | 0 <= i < |ds| ensures ds[i].props[|ds[i].props| - 1] == ClassName {
    }
  }

  /** Whether a value is the name of a registered component (`Map.prototype.has` matches strings only). */
  predicate Registered(entries: map<string, ComponentDetails>, v: Option<Json>) {
    v.Some? && v.value.JStr? && v.value.s in entries
  }

  /**
   * The registry: component details by name, and the names in insertion
   * order, which `Map` iteration follows.
   */
  class ComponentRegistry {
    var entries: map<string, ComponentDetails>
    var order: seq<string>

    /** Each registered name is listed once, and every entry is filed under its own name. */
    ghost predicate Valid()
      reads this
    {
      Distinct(order)
      && (forall n :: n in entries <==> n in order)
      && (forall n :: n in entries ==> entries[n].name == n)
    }

    /** The module-level registrations of the seventeen built-in components. */
    constructor()
      ensures Valid()
      ensures order == Names(BuiltIns())
      ensures forall i :: 0 <= i < |BuiltIns()| ==> BuiltIns()[i].name in entries && entries[BuiltIns()[i].name] == BuiltIns()[i]
    {
      var ds := BuiltIns();
      BuiltInNamesDistinct();
      var m, names := RegisterAll(ds);
      entries, order := m, names;
    }

    /** `hasComponent(name)`. */
    predicate HasComponent(name: string)
      reads this
    {
      name in entries
    }

    /** `getComponentDetails(name)`: the details filed under the name, or `null`. */
    function GetComponentDetails(name: string): (r: Option<ComponentDetails>)
      reads this
      requires Valid()
      ensures r.Some? <==> HasComponent(name)
      ensures r.Some? ==> r.value.name == name
    {
      if name in entries then Some(entries[name]) else None
    }

    /** `getAllComponents()`: every registered component, in registration order. */
    function GetAllComponents(): (r: seq<ComponentDetails>)
      reads this
      requires Valid()
      ensures |r| == |order|
      ensures forall i :: 0 <= i < |r| ==> r[i].name == order[i] && r[i] == entries[order[i]]
      ensures forall d :: d in r <==> d.name in entries && entries[d.name] == d
    {
      var names, m := order, entries;
      var r := seq(|names|, i requires 0 <= i < |names| => m[names[i]]);
      assert forall d: ComponentDetails :: d.name in m && m[d.name] == d ==> r[IndexOf(names, d.name)] == d;
      r
    }

    /** `getComponentsByCategory(category)`: the registered components of that category, in registration order. */
    function GetComponentsByCategory(category: Category): (r: seq<ComponentDetails>)
      reads this
      requires Valid()
      ensures forall d :: d in r <==> d.name in entries && entries[d.name] == d && d.category == category
      ensures IsSubsequence(r, GetAllComponents())
    {
      OfCategory(GetAllComponents(), category)
    }

    /** `registerComponent(component)`: a new name goes last; a known name keeps its place and gets the new details. */
    method RegisterComponent(component: ComponentDetails)
      requires Valid()
      modifies this
      ensures Valid()
      ensures entries == old(entries)[component.name := component]
      ensures order == if component.name in old(entries) then old(order) else old(order) + [component.name]
    {
      if component.name !in entries {
        order := order + [component.name];
      }
      entries := entries[component.name := component];
    }
  }

  /** Registering distinct component types one after another, starting from an empty map. */
  method RegisterAll(ds: seq<ComponentDetails>) returns (m: map<string, ComponentDetails>, names: seq<string>)
    requires Distinct(Names(ds))
    ensures names == Names(ds)
    ensures forall n :: n in m <==> n in names
    ensures forall j :: 0 <= j < |ds| ==> ds[j].name in m && m[ds[j].name] == ds[j]
    ensures forall n :: n in m ==> m[n].name == n
  {
    m, names := map[], [];
    var i := 0;
    while i < |ds|
      invariant 0 <= i <= |ds|
      invariant names == Names(ds[..i])
      invariant forall n :: n in m <==> n in names
      invariant forall j :: 0 <= j < i ==> ds[j].name in m && m[ds[j].name] == ds[j]
      invariant forall n :: n in m ==> m[n].name == n
    {
      assert Names(ds[..i + 1]) == Names(ds[..i]) + [ds[i].name];
      m := m[ds[i].name := ds[i]];
      names := names + [ds[i].name];
      i := i + 1;
    }
    assert ds[..i] == ds;
  }

  function IndexOf(ns: seq<string>, n: string): (i: nat)
    requires n in ns
    ensures i < |ns| && ns[i] == n
  {
    if ns[0] == n then 0 else 1 + IndexOf(ns[1..], n)
  }

  /** The elements of `ds` with the given category, in order. */
  function OfCategory(ds: seq<ComponentDetails>, category: Category): (r: seq<ComponentDetails>)
    ensures forall d :: d in r <==> d in ds && d.category == category
    ensures IsSubsequence(r, ds)
  {
    if ds == [] then []
    else if ds[0].category == category then [ds[0]] + OfCategory(ds[1..], category)
    else OfCategory(ds[1..], category)
  }

  /** `a` is `b` with some elements left out, the rest kept in order. */
  predicate IsSubsequence<T(==)>(a: seq<T>, b: seq<T>)
    decreases |b|
  {
    if a == [] then true
    else if b == [] then false
    else if a[0] == b[0] then IsSubsequence(a[1..], b[1..])
    else IsSubsequence(a, b[1..])
  }

  // ----- validateTreeComponents -----

  /** `Unknown component "${node.component}" at ${path}`. */
  function UnknownMessage(name: Option<Json>, path: string): string {
    "Unknown component \"" + JsString(name) + "\" at " + path
  }

  /** `Component "${node.component}" at ${path} cannot have children`. */
  function LeafMessage(name: string, path: string): string {
    "Component \"" + name + "\" at " + path + " cannot have children"
  }

  /** The path of a child as the scan and the validator write it: `${path}.children[${index}]`. */
  function ChildPath(path: string, index: nat): string {
    path + ".children[" + NatStr(index) + "]"
  }

  /**
   * A node the scan can walk without throwing: not `null`, and any truthy
   * `children` is an array of such nodes. Anything else makes the scan
   * read `component` of `null` or call `forEach` on a non-array.
   */
  predicate Scannable(node: Json)
    decreases node
  {
    match node
    case JNull => false
    case JObj(o) =>
      if "children" in o.fields && Truthy(Some(o.fields["children"])) then
        match o.fields["children"]
        case JArr(cs) => forall i :: 0 <= i < |cs| ==> Scannable(cs[i])
        case _ => false
      else true
    case _ => true
  }

  /**
   * The messages `validateTreeComponents` collects for `node` at `path`, in
   * pre-order: the unknown-name message of the node, then the leaf message
   * when a registered leaf has truthy `children`, then those of its children
   * in order. A TypeError when a node cannot be scanned.
   */
  function Scan(entries: map<string, ComponentDetails>, node: Json, path: string): (r: Result<seq<string>, EngineFault>)
    ensures r.Ok? <==> Scannable(node)
    decreases node, 1
  {
    match node
    case JNull => Err(TypeError)
    case JObj(o) =>
      var name := Get(o, "component");
      if "children" in o.fields && Truthy(Some(o.fields["children"])) then
        match o.fields["children"]
        case JArr(cs) => Prepend(UnknownPart(entries, name, path) + LeafPart(entries, name, path), ScanChildren(entries, cs, path, 0, node))
        case _ => Err(TypeError)
      else Ok(UnknownPart(entries, name, path))
    case _ => Ok([UnknownMessage(None, path)])
  }

  /** The unknown-name message of a node, if its name is not registered. */
  function UnknownPart(entries: map<string, ComponentDetails>, name: Option<Json>, path: string): seq<string> {
    if Registered(entries, name) then [] else [UnknownMessage(name, path)]
  }

  /** The leaf message of a node with truthy children, if it is a registered leaf. */
  function LeafPart(entries: map<string, ComponentDetails>, name: Option<Json>, path: string): seq<string> {
    if Registered(entries, name) && !entries[name.value.s].canHaveChildren then [LeafMessage(name.value.s, path)] else []
  }

  /** The messages for children `from` onwards, each under its own child path. */
  function ScanChildren(entries: map<string, ComponentDetails>, cs: seq<Json>, path: string, from: nat, ghost parent: Json)
    : (r: Result<seq<string>, EngineFault>)
    requires forall i :: 0 <= i < |cs| ==> cs[i] < parent
    ensures r.Ok? <==> forall i :: from <= i < |cs| ==> Scannable(cs[i])
    decreases parent, 0, |cs| - from
  {
    if from >= |cs| then Ok([])
    else match Scan(entries, cs[from], ChildPath(path, from))
      case Err(e) => Err(e)
      case Ok(es) =>
        match ScanChildren(entries, cs, path, from + 1, parent)
        case Err(e) => Err(e)
        case Ok(rest) => Ok(es + rest)
  }

  /**
   * A registered leaf component with a truthy `children` value is reported
   * even when the array is empty: the scan tests truthiness, not length.
   */
  lemma LeafWithEmptyChildren(entries: map<string, ComponentDetails>, name: string, path: string)
    requires name in entries && !entries[name].canHaveChildren
    ensures Scan(entries, JObj(Obj(["component", "children"], map["component" := JStr(name), "children" := JArr([])])), path)
      == Ok([LeafMessage(name, path)])
  {
    var o := Obj(["component", "children"], map["component" := JStr(name), "children" := JArr([])]);
    assert o.fields["children"] == JArr([]);
    assert Get(o, "component") == Some(JStr(name));
    assert "children" in o.fields && Truthy(Some(o.fields["children"]));
    assert Registered(entries, Get(o, "component"));
    assert ScanChildren(entries, [], path, 0, JObj(o)) == Ok([]);
    assert [] + [LeafMessage(name, path)] + [] == [LeafMessage(name, path)];
  }

  /** A node without a registered name is reported once, before anything found below it. */
  lemma UnknownReportedFirst(entries: map<string, ComponentDetails>, node: Json, path: string)
    requires node.JObj? && Scannable(node)
    requires !Registered(entries, Get(node.obj, "component"))
    ensures |Scan(entries, node, path).value| >= 1
    ensures Scan(entries, node, path).value[0] == UnknownMessage(Get(node.obj, "component"), path)
  {
  }

  /**
   * The scan from child `i` is the scan of child `i` followed by the scan
   * from child `i + 1`; so messages `acc` collected before child `i` come
   * first either way.
   */
  lemma ScanChildrenStep(entries: map<string, ComponentDetails>, cs: seq<Json>, path: string, i: nat, parent: Json, acc: seq<string>)
    requires i < |cs| && forall j :: 0 <= j < |cs| ==> cs[j] < parent
    ensures Scan(entries, cs[i], ChildPath(path, i)).Err? ==>
      ScanChildren(entries, cs, path, i, parent) == Err(Scan(entries, cs[i], ChildPath(path, i)).error)
    ensures Scan(entries, cs[i], ChildPath(path, i)).Ok? ==>
      ScanChildren(entries, cs, path, i, parent)
        == Prepend(Scan(entries, cs[i], ChildPath(path, i)).value, ScanChildren(entries, cs, path, i + 1, parent))
    ensures Scan(entries, cs[i], ChildPath(path, i)).Ok? ==>
      Prepend(acc, ScanChildren(entries, cs, path, i, parent))
        == Prepend(acc + Scan(entries, cs[i], ChildPath(path, i)).value, ScanChildren(entries, cs, path, i + 1, parent))
  {
    var rest := ScanChildren(entries, cs, path, i + 1, parent);
    if Scan(entries, cs[i], ChildPath(path, i)).Ok? && rest.Ok? {
      var es := Scan(entries, cs[i], ChildPath(path, i)).value;
      assert acc + (es + rest.value) == (acc + es) + rest.value;
    }
  }

  /** Messages already collected, put in front of the messages still to come. */
  function Prepend(done: seq<string>, r: Result<seq<string>, EngineFault>): Result<seq<string>, EngineFault> {
    match r
    case Ok(rest) => Ok(done + rest)
    case Err(e) => Err(e)
  }

  /**
   * `validateTreeComponents(tree)` on the registry: a recursive visit that
   * appends to one message list, looping over the children of each node.
   */
  method ValidateTreeComponents(registry: ComponentRegistry, tree: Option<Json>) returns (r: Result<seq<string>, EngineFault>)
    requires registry.Valid()
    ensures tree.None? ==> r == Err(TypeError)
    ensures tree.Some? ==> r == Scan(registry.entries, tree.value, "$")
  {
    if tree.None? {
      return Err(TypeError);
    }
    ghost var whole := Scan(registry.entries, tree.value, "$");
    r := Visit(registry.entries, tree.value, "$", []);
    if whole.Ok? {
      assert [] + whole.value == whole.value;
    }
  }

  /** The inner `validate(node, path)`: appends the node's messages to `errors`. */
  method Visit(entries: map<string, ComponentDetails>, node: Json, path: string, errors: seq<string>)
    returns (r: Result<seq<string>, EngineFault>)
    ensures r == Prepend(errors, Scan(entries, node, path))
    decreases node, 1
  {
    if node.JNull? {
      return Err(TypeError);
    }
    if !node.JObj? {
      return Ok(errors + [UnknownMessage(None, path)]);
    }
    var o := node.obj;
    var name := Get(o, "component");
    var acc := errors;
    if !Registered(entries, name) {
      acc := acc + [UnknownMessage(name, path)];
    }
    assert acc == errors + UnknownPart(entries, name, path);
    if !("children" in o.fields && Truthy(Some(o.fields["children"]))) {
      return Ok(acc);
    }
    if Registered(entries, name) && !entries[name.value.s].canHaveChildren {
      acc := acc + [LeafMessage(name.value.s, path)];
    }
    var children := o.fields["children"];
    if !children.JArr? {
      return Err(TypeError);
    }
    ghost var own := UnknownPart(entries, name, path) + LeafPart(entries, name, path);
    assert acc == errors + own;
    ghost var rest := ScanChildren(entries, children.items, path, 0, node);
    r := VisitChildren(entries, children.items, path, acc, node);
    if rest.Ok? {
      assert errors + (own + rest.value) == (errors + own) + rest.value;
    }
  }

  /** `node.children.forEach((child, index) => validate(child, `${path}.children[${index}]`))`. */
  method VisitChildren(entries: map<string, ComponentDetails>, cs: seq<Json>, path: string, errors: seq<string>, ghost parent: Json)
    returns (r: Result<seq<string>, EngineFault>)
    requires forall i :: 0 <= i < |cs| ==> cs[i] < parent
    ensures r == Prepend(errors, ScanChildren(entries, cs, path, 0, parent))
    decreases parent, 0
  {
    var acc := errors;
    ghost var whole := ScanChildren(entries, cs, path, 0, parent);
    var i := 0;
    while i < |cs|
      invariant 0 <= i <= |cs|
      invariant Prepend(acc, ScanChildren(entries, cs, path, i, parent)) == Prepend(errors, whole)
    {
      var next := Visit(entries, cs[i], ChildPath(path, i), acc);
      ScanChildrenStep(entries, cs, path, i, parent, acc);
      if next.Err? {
        return Err(next.error);
      }
      acc := next.value;
      i := i + 1;
    }
    assert acc + [] == acc;
    return Ok(acc);
  }
}
