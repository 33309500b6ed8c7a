/**
 * What `validate_tree` guarantees: the structural walk finds nothing
 * exactly for trees that meet a declarative description of a well-formed
 * tree, every error it reports lies within the node being checked, the
 * path given to a scan message is the text after " at " (which, for a
 * cannot-have-children message, keeps the message's tail), and for a
 * parent with one child validation agrees with `canBeChildOf`.
 */
module ValidateTreeProperties {
  import opened Wrappers
  import opened Text
  import opened JsonValue
  import opened Components
  import opened ValidateTreeTool

  /** The props a component accepts: none, or an object whose every key is declared. */
  predicate DeclaredProps(details: ComponentDetails, props: Option<Json>) {
    !Truthy(props) || (props.value.JObj? && forall k :: k in props.value.obj.keys ==> k in PropNames(details))
  }

  /**
   * A tree the structural walk accepts, said declaratively: every node has
   * a non-empty string `component`; a registered one has declared props
   * only, and its children, if any, are an array of accepted nodes, empty
   * unless the component takes children. Below an unregistered node
   * nothing is required.
   */
  predicate StructurallyValid(entries: map<string, ComponentDetails>, node: Json)
    decreases node
  {
    HasComponentName(node)
    && var name := node.obj.fields["component"].s;
    (name in entries ==>
      DeclaredProps(entries[name], Get(node.obj, "props"))
      && ("children" in node.obj.fields && Truthy(Some(node.obj.fields["children"])) ==>
        match node.obj.fields["children"]
        case JArr(cs) =>
          (|cs| > 0 ==> entries[name].canHaveChildren)
          && forall i :: 0 <= i < |cs| ==> StructurallyValid(entries, cs[i])
        case _ => false))
  }

  lemma {:induction false} UnknownPropErrorsEmpty(details: ComponentDetails, name: string, keys: seq<string>, path: string)
    ensures UnknownPropErrors(details, name, keys, path) == [] <==> forall k :: k in keys ==> k in PropNames(details)
    decreases |keys|
  {
    if keys != [] {
      UnknownPropErrorsEmpty(details, name, keys[1..], path);
      assert forall k :: k in keys <==> k == keys[0] || k in keys[1..];
    }
  }

  /** The walk reports nothing for a node exactly when the node is structurally valid. */
  lemma {:induction false} NodeErrorsEmpty(entries: map<string, ComponentDetails>, node: Json, path: string)
    requires Scannable(node)
    ensures NodeErrors(entries, node, path) == [] <==> StructurallyValid(entries, node)
    decreases node, 1
  {
    if HasComponentName(node) {
      var name := node.obj.fields["component"].s;
      if name in entries {
        var props := Get(node.obj, "props");
        if Truthy(props) && props.value.JObj? {
          UnknownPropErrorsEmpty(entries[name], name, props.value.obj.keys, path);
        }
        var children := Get(node.obj, "children");
        if Truthy(children) && children.value.JArr? {
          var cs := children.value.items;
          if entries[name].canHaveChildren || |cs| == 0 {
            ChildrenErrorsEmpty(entries, cs, path, 0, node);
          }
        }
      }
    }
  }

  lemma {:induction false} ChildrenErrorsEmpty(entries: map<string, ComponentDetails>, cs: seq<Json>, path: string, from: nat,
                                               parent: Json)
    requires forall i :: 0 <= i < |cs| ==> cs[i] < parent && Scannable(cs[i])
    ensures ChildrenErrors(entries, cs, path, from, parent) == [] <==>
      forall i :: from <= i < |cs| ==> StructurallyValid(entries, cs[i])
    decreases parent, 0, |cs| - from
  {
    if from < |cs| {
      NodeErrorsEmpty(entries, cs[from], ChildPath(path, from));
      ChildrenErrorsEmpty(entries, cs, path, from + 1, parent);
    }
  }

  /** Every error of the walk is located at the node's own path or below it. */
  lemma {:induction false} NodeErrorsWithin(entries: map<string, ComponentDetails>, node: Json, path: string)
    requires Scannable(node)
    ensures forall e :: e in NodeErrors(entries, node, path) ==> StartsWith(e.path, path)
    decreases node, 1
  {
    if HasComponentName(node) {
      var name := node.obj.fields["component"].s;
      if name in entries {
        var props := Get(node.obj, "props");
        if Truthy(props) && props.value.JObj? {
          UnknownPropErrorsWithin(entries[name], name, props.value.obj.keys, path);
        }
        assert forall e :: e in PropErrors(entries[name], name, props, path) ==> StartsWith(e.path, path);
        var children := Get(node.obj, "children");
        if Truthy(children) && children.value.JArr? {
          ChildrenErrorsWithin(entries, children.value.items, path, 0, node);
        }
      }
    }
  }

  lemma {:induction false} ChildrenErrorsWithin(entries: map<string, ComponentDetails>, cs: seq<Json>, path: string, from: nat,
                                                parent: Json)
    requires forall i :: 0 <= i < |cs| ==> cs[i] < parent && Scannable(cs[i])
    ensures forall e :: e in ChildrenErrors(entries, cs, path, from, parent) ==> StartsWith(e.path, path)
    decreases parent, 0, |cs| - from
  {
    if from < |cs| {
      var child := ChildPath(path, from);
      NodeErrorsWithin(entries, cs[from], child);
      ChildrenErrorsWithin(entries, cs, path, from + 1, parent);
      forall e | e in NodeErrors(entries, cs[from], child) ensures StartsWith(e.path, path) {
        assert e.path[..|path|] == child[..|child|][..|path|];
      }
    }
  }

  lemma {:induction false} UnknownPropErrorsWithin(details: ComponentDetails, name: string, keys: seq<string>, path: string)
    ensures forall e :: e in UnknownPropErrors(details, name, keys, path) ==> StartsWith(e.path, path)
    decreases |keys|
  {
    if keys != [] {
      UnknownPropErrorsWithin(details, name, keys[1..], path);
      assert StartsWith(path + ".props." + keys[0], path);
    }
  }

  /** A scanned tree is valid exactly when the scan found nothing and the tree is structurally valid. */
  lemma ValidIff(entries: map<string, ComponentDetails>, tree: Json)
    requires Scannable(tree)
    ensures Validate(entries, Some(tree)).Ok?
    ensures Validate(entries, Some(tree)).value.valid <==>
      Scan(entries, tree, "$").value == [] && StructurallyValid(entries, tree)
  {
    NodeErrorsEmpty(entries, tree, "$");
  }

  // ----- Paths of scan messages -----

  predicate NoSpace(s: string) {
    forall i :: 0 <= i < |s| ==> s[i] != ' '
  }

  /** " at " cannot start at a position that is not a space, or a space not followed by 'a'. */
  lemma NotAtHere(s: string, j: nat)
    requires j < |s|
    requires s[j] != ' ' || (j + 1 < |s| && s[j + 1] != 'a')
    ensures !OccursAt(s, " at ", j)
  {
    if j + 4 <= |s| {
      assert s[j..j + 4][0] == s[j] && s[j..j + 4][1] == s[j + 1];
    }
  }

  lemma NotAtAnywhere(s: string)
    requires NoSpace(s)
    ensures forall j :: 0 <= j < |s| ==> !OccursAt(s, " at ", j)
  {
    forall j | 0 <= j < |s| ensures !OccursAt(s, " at ", j) {
      NotAtHere(s, j);
    }
  }

  /** `"Unknown component \"" + x + "\""` holds no " at ", even with text after it. */
  lemma UnknownHeadClear(x: string, rest: string)
    requires NoSpace(x)
    ensures var a := "Unknown component \"" + x + "\"";
      forall j :: 0 <= j < |a| ==> !OccursAt(a + rest, " at ", j)
  {
    var p := "Unknown component \"";
    var a := p + x + "\"";
    var s := a + rest;
    assert |p| == 19 && |a| == 20 + |x|;
    forall j | 0 <= j < |a| ensures !OccursAt(s, " at ", j) {
      assert s[j] == a[j];
      if j == 7 {
        assert s[j + 1] == a[8] == 'c';
      } else if j == 17 {
        assert s[j + 1] == a[18] == '"';
      } else if j < 19 {
        assert a[j] == p[j];
      } else if j < 19 + |x| {
        assert a[j] == x[j - 19];
      } else {
        assert a[j] == '"';
      }
      NotAtHere(s, j);
    }
  }

  /** `"Component \"" + x + "\""` holds no " at ", even with text after it. */
  lemma LeafHeadClear(x: string, rest: string)
    requires NoSpace(x)
    ensures var a := "Component \"" + x + "\"";
      forall j :: 0 <= j < |a| ==> !OccursAt(a + rest, " at ", j)
  {
    var a := "Component \"" + x + "\"";
    var s := a + rest;
    forall j | 0 <= j < |a| ensures !OccursAt(s, " at ", j) {
      assert s[j] == a[j];
      if j == 9 {
        assert s[j + 1] == a[10] == '"';
      } else if j < 11 {
        assert a[j] == "Component \""[j];
      } else if j < 11 + |x| {
        assert a[j] == x[j - 11];
      } else {
        assert a[j] == '"';
      }
      NotAtHere(s, j);
    }
  }

  /** `x + " cannot have children"` holds no " at " when `x` has no space. */
  lemma LeafTailClear(x: string)
    requires NoSpace(x)
    ensures var b := x + " cannot have children";
      forall j :: 0 <= j < |b| ==> !OccursAt(b, " at ", j)
  {
    var t := " cannot have children";
    var b := x + t;
    forall j | 0 <= j < |b| ensures !OccursAt(b, " at ", j) {
      if j < |x| {
        assert b[j] == x[j];
      } else {
        var k := j - |x|;
        assert b[j] == t[k];
        if k + 1 < |t| {
          assert b[j + 1] == t[k + 1];
        }
        assert t[k] != ' ' || t[k + 1] != 'a';
      }
      NotAtHere(b, j);
    }
  }

  /** The path given to an unknown-component message is the node's path. */
  lemma UnknownScanErrorPath(name: Option<Json>, path: string)
    requires NoSpace(JsString(name)) && NoSpace(path) && path != []
    ensures ScanErrorPath(UnknownMessage(name, path)) == path
  {
    var a := "Unknown component \"" + JsString(name) + "\"";
    assert UnknownMessage(name, path) == a + " at " + path;
    UnknownHeadClear(JsString(name), " at " + path);
    assert a + " at " + path == a + (" at " + path);
    SplitOnFirst(a, " at ", path);
    NotAtAnywhere(path);
    SplitOnNone(path, " at ");
  }

  /**
   * The path given to a cannot-have-children message is the node's path
   * followed by " cannot have children": the message's tail after " at ".
   */
  lemma LeafScanErrorPath(name: string, path: string)
    requires NoSpace(name) && NoSpace(path)
    ensures ScanErrorPath(LeafMessage(name, path)) == path + " cannot have children"
  {
    var a := "Component \"" + name + "\"";
    var b := path + " cannot have children";
    assert LeafMessage(name, path) == a + " at " + b;
    LeafHeadClear(name, " at " + b);
    assert a + " at " + b == a + (" at " + b);
    SplitOnFirst(a, " at ", b);
    LeafTailClear(path);
    SplitOnNone(b, " at ");
  }

  // ----- Small trees -----

  /** A node holding only a component name. */
  function Bare(name: string): Json {
    JObj(Obj(["component"], map["component" := JStr(name)]))
  }

  /** A node with one child. */
  function WithChild(name: string, child: Json): Json {
    JObj(Obj(["component", "children"], map["component" := JStr(name), "children" := JArr([child])]))
  }

  /** Required props are not enforced: a registered component without props passes the walk. */
  lemma MissingRequiredPropsAccepted(entries: map<string, ComponentDetails>, name: string, path: string)
    requires name in entries && name != ""
    ensures NodeErrors(entries, Bare(name), path) == []
  {
    assert Get(Bare(name).obj, "props").None? && Get(Bare(name).obj, "children").None?;
  }

  /**
   * For a parent holding one bare child, validation succeeds exactly when
   * `canBeChildOf(child, parent)` holds: both names registered and the
   * parent takes children.
   */
  lemma CanBeChildOfAgrees(entries: map<string, ComponentDetails>, parent: string, child: string)
    requires parent != "" && child != ""
    ensures Validate(entries, Some(WithChild(parent, Bare(child)))).Ok?
    ensures Validate(entries, Some(WithChild(parent, Bare(child)))).value.valid <==> CanBeChildOf(entries, child, parent)
  {
    var tree := WithChild(parent, Bare(child));
    ScanWithChild(entries, parent, child);
    ValidIff(entries, tree);
    if CanBeChildOf(entries, child, parent) {
      WithChildValid(entries, parent, child);
    }
  }

  /** The walk over a parent holding one bare child reports nothing exactly when the child may go there. */
  lemma ScanWithChild(entries: map<string, ComponentDetails>, parent: string, child: string)
    requires parent != "" && child != ""
    ensures Scannable(WithChild(parent, Bare(child)))
    ensures Scan(entries, WithChild(parent, Bare(child)), "$").Ok?
    ensures Scan(entries, WithChild(parent, Bare(child)), "$").value == [] <==> CanBeChildOf(entries, child, parent)
  {
    var tree := WithChild(parent, Bare(child));
    assert Get(tree.obj, "component") == Some(JStr(parent));
    assert Get(tree.obj, "children") == Some(JArr([Bare(child)]));
    assert Get(Bare(child).obj, "component") == Some(JStr(child));
    assert Scannable(Bare(child));
    assert Scannable(tree);
    var scanChild := Scan(entries, Bare(child), ChildPath("$", 0));
    assert scanChild == Ok(UnknownPart(entries, Some(JStr(child)), ChildPath("$", 0)));
    assert ScanChildren(entries, [Bare(child)], "$", 1, tree) == Ok([]);
    assert ScanChildren(entries, [Bare(child)], "$", 0, tree) == Ok(scanChild.value + []);
    var scanned := Scan(entries, tree, "$").value;
    assert scanned == UnknownPart(entries, Some(JStr(parent)), "$") + LeafPart(entries, Some(JStr(parent)), "$") + scanChild.value + [];
    if CanBeChildOf(entries, child, parent) {
      assert scanned == [];
    } else if child !in entries {
      assert scanChild.value != [];
    } else if parent !in entries {
      assert UnknownPart(entries, Some(JStr(parent)), "$") != [];
    } else {
      assert LeafPart(entries, Some(JStr(parent)), "$") != [];
    }
  }

  /** A registered parent that takes children, holding one registered bare child, is structurally valid. */
  lemma WithChildValid(entries: map<string, ComponentDetails>, parent: string, child: string)
    requires parent != "" && child != ""
    requires CanBeChildOf(entries, child, parent)
    ensures StructurallyValid(entries, WithChild(parent, Bare(child)))
  {
    var tree := WithChild(parent, Bare(child));
    assert Field(tree, "component") == Some(JStr(parent)) && Get(tree.obj, "props") == None;
    assert Field(Bare(child), "component") == Some(JStr(child)) && Get(Bare(child).obj, "props") == None;
    assert StructurallyValid(entries, Bare(child));
  }

  /** A registered leaf whose `children` is an empty array. */
  function LeafWithNoChildren(name: string): Json {
    JObj(Obj(["component", "children"], map["component" := JStr(name), "children" := JArr([])]))
  }

  /**
   * A registered leaf with an empty `children` array passes the walk, which
   * checks the length, but not the registry scan, which checks
   * truthiness: the tree is invalid with the single scan error.
   */
  lemma EmptyChildrenWalk(entries: map<string, ComponentDetails>, name: string)
    requires name in entries && name != ""
    ensures Scannable(LeafWithNoChildren(name))
    ensures NodeErrors(entries, LeafWithNoChildren(name), "$") == []
  {
    var tree := LeafWithNoChildren(name);
    assert Get(tree.obj, "component") == Some(JStr(name));
    assert Get(tree.obj, "children") == Some(JArr([]));
    assert Get(tree.obj, "props") == None;
    assert ChildrenErrors(entries, [], "$", 0, tree) == [];
  }
  lemma EmptyChildrenOnLeaf(entries: map<string, ComponentDetails>, name: string)
    requires name in entries && !entries[name].canHaveChildren && name != ""
    ensures Validate(entries, Some(LeafWithNoChildren(name)))
      == Ok(ValidationResult(false, [ScanError(LeafMessage(name, "$"))]))
  {
    var tree := LeafWithNoChildren(name);
    LeafWithEmptyChildren(entries, name, "$");
    assert Scan(entries, tree, "$") == Ok([LeafMessage(name, "$")]);
    EmptyChildrenWalk(entries, name);
    var errors := ScanErrors([LeafMessage(name, "$")]) + NodeErrors(entries, tree, "$");
    assert errors == [ScanError(LeafMessage(name, "$"))];
    assert Validate(entries, Some(tree)) == Ok(ValidationResult(|errors| == 0, errors));
  }
}
