/**
 * What the four operations of `modify_ui` guarantee: an insertion is undone
 * by removing the same slot, replacing a child and then putting the old
 * child back restores the tree, a props update is idempotent and merges
 * key by key, replacing the root merges the fragment's fields, nothing
 * outside the edited node changes, and an unregistered component is
 * rejected whatever the path.
 */
module ModifyUIProperties {
  import opened Wrappers
  import opened Text
  import opened JsonValue
  import opened PathSyntax
  import opened Navigation
  import Components
  import opened ModifyUITool

  // ----- Rewriting a node twice -----

  /** Writing a property's own value back changes nothing. */
  lemma PutSelf(o: Obj, k: string, v: Json)
    requires Get(o, k) == Some(v)
    ensures Put(o, k, v) == o
  {
    assert o.fields[k := v] == o.fields;
  }

  /** Writing a property and then writing its old value back changes nothing. */
  lemma PutThenRestore(o: Obj, k: string, v: Json, x: Json)
    requires Get(o, k) == Some(v)
    ensures Put(Put(o, k, x), k, v) == o
  {
    assert o.fields[k := x][k := v] == o.fields;
  }

  /** The second of two rewrites of the same location wins. */
  lemma {:induction false} SetAtTwice(v: Json, ks: seq<Key>, x: Json, y: Json)
    requires At(v, ks).Some?
    ensures At(SetAt(v, ks, x), ks).Some?
    ensures SetAt(SetAt(v, ks, x), ks, y) == SetAt(v, ks, y)
    decreases |ks|
  {
    AtSetAt(v, ks, x);
    if ks != [] {
      var w := Step(v, ks[0]).value;
      SetAtTwice(w, ks[1..], x, y);
      if v.JObj? {
        var name := PropName(ks[0]);
        var m := v.obj.fields[name := SetAt(w, ks[1..], x)];
        assert m[name := SetAt(SetAt(w, ks[1..], x), ks[1..], y)] == v.obj.fields[name := SetAt(w, ks[1..], y)];
      } else {
        var i := ks[0].index;
        assert v.items[i := SetAt(w, ks[1..], x)][i := SetAt(SetAt(w, ks[1..], x), ks[1..], y)]
            == v.items[i := SetAt(w, ks[1..], y)];
      }
    }
  }

  lemma PutNodeTwice(tree: Obj, loc: seq<Key>, a: Obj, b: Obj)
    requires At(JObj(tree), loc).Some?
    ensures PutNode(PutNode(tree, loc, a), loc, b) == PutNode(tree, loc, b)
  {
    if loc != [] {
      SetAtTwice(JObj(tree), loc, JObj(a), JObj(b));
    }
  }

  /** Putting back the node that is already there changes nothing. */
  lemma PutNodeSame(tree: Obj, loc: seq<Key>, node: Obj)
    requires At(JObj(tree), loc) == Some(JObj(node))
    ensures PutNode(tree, loc, node) == tree
  {
    if loc != [] {
      SetAtSame(JObj(tree), loc);
    }
  }

  /** Rewriting one node leaves every location that parts ways with it unchanged. */
  lemma PutNodeFrame(tree: Obj, loc: seq<Key>, node: Obj, other: seq<Key>)
    requires At(JObj(tree), loc).Some?
    requires Diverge(loc, other)
    ensures At(JObj(PutNode(tree, loc, node)), other) == At(JObj(tree), other)
  {
    SetAtFrame(JObj(tree), loc, JObj(node), other);
  }

  // ----- Finding the same node again -----

  /** After the parent of a slot is rewritten (still a node), the same path leads to the new parent. */
  lemma ParentAfterPutNode(tree: Obj, path: string, parent: Obj)
    requires NavigateToParent(tree, path).Ok?
    requires "component" in parent.fields
    ensures var slot := NavigateToParent(tree, path).value;
      NavigateToParent(PutNode(tree, slot.loc, parent), path) == Ok(Slot(slot.parentPath, slot.loc, parent, slot.index))
  {
    var slot := NavigateToParent(tree, path).value;
    var t := PutNode(tree, slot.loc, parent);
    if slot.parentPath != "$" && slot.parentPath != "" {
      WalkFindsAt(JObj(t), slot.loc);
    }
  }

  /** After the node an update targets is rewritten (still a node), the same path leads to the new node. */
  lemma TargetAfterPutNode(tree: Obj, path: string, node: Obj)
    requires UpdateTarget(tree, path).Ok?
    requires UpdateTarget(tree, path).value.1.Some?
    ensures var loc := UpdateTarget(tree, path).value.0;
      UpdateTarget(PutNode(tree, loc, node), path) == Ok((loc, Some(JObj(node))))
  {
    var loc := UpdateTarget(tree, path).value.0;
    if path != "$" {
      WalkFindsAt(JObj(PutNode(tree, loc, node)), loc);
    }
  }

  // ----- add and remove -----

  /** `splice(i, 1)` undoes `splice(i, 0, x)` for an index within the list or just past it. */
  lemma RemoveInserted(cs: seq<Json>, index: nat, x: Json)
    requires index <= |cs|
    ensures index < |Insert(cs, index, x)| && Insert(cs, index, x)[index] == x
    ensures RemoveAt(Insert(cs, index, x), index) == cs
  {
    var r := RemoveAt(Insert(cs, index, x), index);
    assert forall j :: 0 <= j < |r| ==> r[j] == cs[j];
  }

  /** Writing a slot's parent with other children and then writing its old children back gives back the tree. */
  lemma RestoreSlot(tree: Obj, slot: Slot, cs: seq<Json>, ys: seq<Json>)
    requires At(JObj(tree), slot.loc) == Some(JObj(slot.parent))
    requires Get(slot.parent, "children") == Some(JArr(cs))
    ensures var changed := Put(slot.parent, "children", JArr(ys));
      PutNode(PutNode(tree, slot.loc, changed), slot.loc, Put(changed, "children", JArr(cs))) == tree
  {
    var changed := Put(slot.parent, "children", JArr(ys));
    PutThenRestore(slot.parent, "children", JArr(cs), JArr(ys));
    PutNodeTwice(tree, slot.loc, changed, slot.parent);
    PutNodeSame(tree, slot.loc, slot.parent);
  }

  /** What a successful add at a child slot (not the root) does to the tree. */
  lemma AddAtSlot(entries: Registry, tree: Obj, path: string, component: Json, cs: seq<Json>)
    requires NavigateToParent(tree, path).Ok?
    requires Get(NavigateToParent(tree, path).value.parent, "children") == Some(JArr(cs))
    requires NavigateToParent(tree, path).value.index <= |cs|
    requires ApplyAdd(entries, tree, path, component).Ok?
    ensures component != JNull
    ensures var slot := NavigateToParent(tree, path).value;
      ApplyAdd(entries, tree, path, component).value.tree
        == PutNode(tree, slot.loc, Put(slot.parent, "children", JArr(Insert(cs, slot.index, component))))
  {
    RootPathsNameNoSlot();
  }

  /** Removing the child just inserted at a slot gives back the tree it was inserted into. */
  lemma RemoveInsertedAtSlot(tree: Obj, path: string, slot: Slot, cs: seq<Json>, component: Json)
    requires NavigateToParent(tree, path) == Ok(slot)
    requires Get(slot.parent, "children") == Some(JArr(cs))
    requires slot.index <= |cs| && component != JNull
    ensures ApplyRemove(PutNode(tree, slot.loc, Put(slot.parent, "children", JArr(Insert(cs, slot.index, component)))), path)
      == Ok(Applied(tree, "Removed " + JsString(Field(component, "component")) + " from " + path))
  {
    var inserted := Insert(cs, slot.index, component);
    var added := Put(slot.parent, "children", JArr(inserted));
    ParentAfterPutNode(tree, path, added);
    RemoveInserted(cs, slot.index, component);
    RemoveAtSlot(PutNode(tree, slot.loc, added), path, Slot(slot.parentPath, slot.loc, added, slot.index), inserted);
    RestoreSlot(tree, slot, cs, inserted);
  }

  /**
   * Adding a component at a child slot of a parent whose children are an
   * array, at an index no later than just past the last child, and then
   * removing that slot gives back the original tree.
   */
  lemma AddThenRemoveRestores(entries: Registry, tree: Obj, path: string, component: Json, cs: seq<Json>)
    requires NavigateToParent(tree, path).Ok?
    requires Get(NavigateToParent(tree, path).value.parent, "children") == Some(JArr(cs))
    requires NavigateToParent(tree, path).value.index <= |cs|
    requires ApplyAdd(entries, tree, path, component).Ok?
    ensures ApplyRemove(ApplyAdd(entries, tree, path, component).value.tree, path)
      == Ok(Applied(tree, "Removed " + JsString(Field(component, "component")) + " from " + path))
  {
    AddAtSlot(entries, tree, path, component, cs);
    RemoveInsertedAtSlot(tree, path, NavigateToParent(tree, path).value, cs, component);
  }

  /** Removing at a slot that holds a non-null child of an array takes that child out. */
  lemma RemoveAtSlot(tree: Obj, path: string, slot: Slot, items: seq<Json>)
    requires NavigateToParent(tree, path) == Ok(slot)
    requires Get(slot.parent, "children") == Some(JArr(items))
    requires slot.index < |items| && items[slot.index] != JNull
    ensures ApplyRemove(tree, path) == Ok(Applied(
      PutNode(tree, slot.loc, Put(slot.parent, "children", JArr(RemoveAt(items, slot.index)))),
      "Removed " + JsString(Field(items[slot.index], "component")) + " from " + path))
  {
    assert !NoChildAt(Get(slot.parent, "children"), slot.index);
  }

  /** Adding at `$` (or `$.children`) is adding at the slot just past the root's last child. */
  lemma RootAddIsAppend(entries: Registry, tree: Obj, component: Json, cs: seq<Json>)
    requires "component" in tree.fields
    requires Get(tree, "children") == Some(JArr(cs))
    requires ApplyAdd(entries, tree, "$", component).Ok?
    ensures ApplyAdd(entries, tree, ChildPath("$", |cs|), component).Ok?
    ensures ApplyAdd(entries, tree, ChildPath("$", |cs|), component).value.tree
      == ApplyAdd(entries, tree, "$", component).value.tree
    ensures NavigateToParent(tree, ChildPath("$", |cs|)) == Ok(Slot("$", [], tree, |cs|))
  {
    SplitChildPath("$", |cs|);
    RootPathsNameNoSlot();
  }

  /** So a component appended at the root is removed again by its slot past the old last child. */
  lemma RootAddThenRemoveRestores(entries: Registry, tree: Obj, component: Json, cs: seq<Json>)
    requires "component" in tree.fields
    requires Get(tree, "children") == Some(JArr(cs))
    requires ApplyAdd(entries, tree, "$", component).Ok?
    ensures ApplyRemove(ApplyAdd(entries, tree, "$", component).value.tree, ChildPath("$", |cs|)).Ok?
    ensures ApplyRemove(ApplyAdd(entries, tree, "$", component).value.tree, ChildPath("$", |cs|)).value.tree == tree
  {
    RootAddIsAppend(entries, tree, component, cs);
    AddThenRemoveRestores(entries, tree, ChildPath("$", |cs|), component, cs);
  }

  // ----- replace -----

  /** What a successful replace at a child slot of an array does to the tree. */
  lemma ReplaceAtSlot(entries: Registry, tree: Obj, path: string, component: Json, cs: seq<Json>)
    requires NavigateToParent(tree, path).Ok?
    requires Get(NavigateToParent(tree, path).value.parent, "children") == Some(JArr(cs))
    requires NavigateToParent(tree, path).value.index < |cs|
    requires ApplyReplace(entries, tree, path, component).Ok?
    ensures var slot := NavigateToParent(tree, path).value;
      component != JNull && cs[slot.index] != JNull &&
      ApplyReplace(entries, tree, path, component).value.tree
        == PutNode(tree, slot.loc, Put(slot.parent, "children", JArr(cs[slot.index := component])))
  {
    RootPathsNameNoSlot();
  }

  /** A registered component replaces a non-null child held in an array at a known slot. */
  lemma ReplaceInArray(entries: Registry, tree: Obj, path: string, slot: Slot, cs: seq<Json>, component: Json)
    requires NavigateToParent(tree, path) == Ok(slot)
    requires Get(slot.parent, "children") == Some(JArr(cs))
    requires slot.index < |cs| && cs[slot.index] != JNull
    requires Components.Registered(entries, Field(component, "component"))
    ensures ApplyReplace(entries, tree, path, component).Ok?
    ensures ApplyReplace(entries, tree, path, component).value.tree
      == PutNode(tree, slot.loc, Put(slot.parent, "children", JArr(cs[slot.index := component])))
  {
    RootPathsNameNoSlot();
  }

  /** Writing the previous child back into a slot whose array child was replaced gives back the tree. */
  lemma RestoreReplaced(tree: Obj, slot: Slot, cs: seq<Json>, component: Json)
    requires At(JObj(tree), slot.loc) == Some(JObj(slot.parent))
    requires Get(slot.parent, "children") == Some(JArr(cs))
    requires slot.index < |cs|
    ensures var changed := Put(slot.parent, "children", JArr(cs[slot.index := component]));
      PutNode(PutNode(tree, slot.loc, changed), slot.loc,
              Put(changed, "children", JArr(cs[slot.index := component][slot.index := cs[slot.index]]))) == tree
  {
    assert cs[slot.index := component][slot.index := cs[slot.index]] == cs;
    RestoreSlot(tree, slot, cs, cs[slot.index := component]);
  }

  /** Putting the previous child back into a slot whose child was replaced gives back the tree. */
  lemma ReplaceBackAtSlot(entries: Registry, tree: Obj, path: string, slot: Slot, cs: seq<Json>, component: Json)
    requires NavigateToParent(tree, path) == Ok(slot)
    requires Get(slot.parent, "children") == Some(JArr(cs))
    requires slot.index < |cs| && component != JNull && cs[slot.index] != JNull
    requires Components.Registered(entries, Field(cs[slot.index], "component"))
    ensures var t := PutNode(tree, slot.loc, Put(slot.parent, "children", JArr(cs[slot.index := component])));
      ApplyReplace(entries, t, path, cs[slot.index]).Ok? && ApplyReplace(entries, t, path, cs[slot.index]).value.tree == tree
  {
    var changed := Put(slot.parent, "children", JArr(cs[slot.index := component]));
    ParentAfterPutNode(tree, path, changed);
    ReplaceInArray(entries, PutNode(tree, slot.loc, changed), path, Slot(slot.parentPath, slot.loc, changed, slot.index),
                   cs[slot.index := component], cs[slot.index]);
    RestoreReplaced(tree, slot, cs, component);
  }

  /**
   * Replacing a child held in an array and then replacing it again with
   * the child that was there before (itself a registered component) gives
   * back the original tree.
   */
  lemma ReplaceTwiceRestores(entries: Registry, tree: Obj, path: string, component: Json, cs: seq<Json>)
    requires NavigateToParent(tree, path).Ok?
    requires Get(NavigateToParent(tree, path).value.parent, "children") == Some(JArr(cs))
    requires NavigateToParent(tree, path).value.index < |cs|
    requires ApplyReplace(entries, tree, path, component).Ok?
    requires Components.Registered(entries, Field(cs[NavigateToParent(tree, path).value.index], "component"))
    ensures var previous := cs[NavigateToParent(tree, path).value.index];
      var again := ApplyReplace(entries, ApplyReplace(entries, tree, path, component).value.tree, path, previous);
      again.Ok? && again.value.tree == tree
  {
    ReplaceAtSlot(entries, tree, path, component, cs);
    ReplaceBackAtSlot(entries, tree, path, NavigateToParent(tree, path).value, cs, component);
  }

  /**
   * Replacing the root copies the fragment's fields over the root's: each
   * field of the fragment takes the fragment's value, every other field
   * (old `children` included) stays, and the root's fields keep their
   * order ahead of the new ones.
   */
  lemma ReplaceRootMerges(entries: Registry, tree: Obj, component: Json)
    requires ApplyReplace(entries, tree, "$", component).Ok?
    ensures component.JObj?
    ensures var r := ApplyReplace(entries, tree, "$", component).value.tree;
      var source := AsSource(component);
      (forall k :: Get(r, k) == if k in source.fields then Some(source.fields[k]) else Get(tree, k))
      && |tree.keys| <= |r.keys| && r.keys[..|tree.keys|] == tree.keys
  {
    AssignSpec(tree, AsSource(component));
  }

  /** An unregistered fragment is rejected by `add` and `replace` before the path is looked at. */
  lemma UnknownComponentRejected(entries: Registry, tree: Obj, operation: string, path: Option<Json>,
                                 component: Json, props: Option<Json>)
    requires operation == "add" || operation == "replace"
    requires Truthy(Some(component))
    requires !Components.Registered(entries, Field(component, "component"))
    ensures ApplyOperation(entries, tree, Some(JStr(operation)), path, Some(component), props)
      == Err(UnknownComponent(Field(component, "component")))
  {
  }

  // ----- Frames -----

  /** The parent of a child slot lies at the keys of the slot's parent path. */
  lemma SlotLocation(tree: Obj, path: string, parentPath: string, index: nat)
    requires SplitChildSlot(path) == Some((parentPath, index))
    requires NavigateToParent(tree, path).Ok?
    ensures NavigateToParent(tree, path).value.loc == PathKeys(parentPath)
  {
    RootPathKeys();
  }

  /** An add at a child slot leaves every location that parts ways with the parent's path unchanged. */
  lemma AddFrame(entries: Registry, tree: Obj, path: string, component: Json, parentPath: string, index: nat, other: seq<Key>)
    requires SplitChildSlot(path) == Some((parentPath, index))
    requires Diverge(PathKeys(parentPath), other)
    requires ApplyAdd(entries, tree, path, component).Ok?
    ensures At(JObj(ApplyAdd(entries, tree, path, component).value.tree), other) == At(JObj(tree), other)
  {
    RootPathsNameNoSlot();
    var slot := NavigateToParent(tree, path).value;
    SlotLocation(tree, path, parentPath, index);
    var cs := ExtendableChildren(Get(slot.parent, "children")).value;
    PutNodeFrame(tree, slot.loc, Put(slot.parent, "children", JArr(Insert(cs, slot.index, component))), other);
  }

  /** A remove leaves every location that parts ways with the parent's path unchanged. */
  lemma RemoveFrame(tree: Obj, path: string, parentPath: string, index: nat, other: seq<Key>)
    requires SplitChildSlot(path) == Some((parentPath, index))
    requires Diverge(PathKeys(parentPath), other)
    requires ApplyRemove(tree, path).Ok?
    ensures At(JObj(ApplyRemove(tree, path).value.tree), other) == At(JObj(tree), other)
  {
    var slot := NavigateToParent(tree, path).value;
    SlotLocation(tree, path, parentPath, index);
    var cs := Get(slot.parent, "children").value.items;
    PutNodeFrame(tree, slot.loc, Put(slot.parent, "children", JArr(RemoveAt(cs, slot.index))), other);
  }

  /** A replace at a child slot leaves every location that parts ways with the parent's path unchanged. */
  lemma ReplaceFrame(entries: Registry, tree: Obj, path: string, component: Json, parentPath: string, index: nat, other: seq<Key>)
    requires SplitChildSlot(path) == Some((parentPath, index))
    requires Diverge(PathKeys(parentPath), other)
    requires ApplyReplace(entries, tree, path, component).Ok?
    ensures At(JObj(ApplyReplace(entries, tree, path, component).value.tree), other) == At(JObj(tree), other)
  {
    RootPathsNameNoSlot();
    var slot := NavigateToParent(tree, path).value;
    SlotLocation(tree, path, parentPath, index);
    forall node: Obj ensures At(JObj(PutNode(tree, slot.loc, node)), other) == At(JObj(tree), other) {
      PutNodeFrame(tree, slot.loc, node, other);
    }
  }

  // ----- update -----

  /** Copying entries whose keys the target already has keeps the target's key list. */
  lemma {:induction false} AssignKeysPresent(t: Obj, source: Obj, ks: seq<string>)
    requires forall k :: k in ks ==> k in t.fields
    ensures AssignKeys(t, source, ks).keys == t.keys
    decreases |ks|
  {
    if ks != [] {
      var t' := if ks[0] in source.fields then Put(t, ks[0], source.fields[ks[0]]) else t;
      AssignKeysPresent(t', source, ks[1..]);
    }
  }

  /** `Object.assign` with the same source a second time changes nothing. */
  lemma AssignIdempotent(target: Obj, source: Obj)
    requires WfObj(source)
    ensures Assign(Assign(target, source), source) == Assign(target, source)
  {
    var a := Assign(target, source);
    AssignSpec(target, source);
    AssignSpec(a, source);
    forall k | k in source.keys ensures k in a.fields {
      assert Get(a, k).Some?;
    }
    AssignKeysPresent(a, source, source.keys);
    SameEntries(Assign(a, source), a);
  }

  // ----- `Object.assign` onto an array of props -----

  /** Every `length` the source writes is one an array accepts. */
  predicate LengthsValid(source: Obj, ks: seq<string>)
    decreases |ks|
  {
    ks == [] ||
    ((ks[0] in source.fields && ks[0] == "length" ==> ArrayLength(source.fields[ks[0]]).Some?)
     && LengthsValid(source, ks[1..]))
  }

  /** The source sets the array's length outright somewhere. */
  predicate WritesLength(source: Obj, ks: seq<string>)
    decreases |ks|
  {
    ks != [] &&
    ((ks[0] in source.fields && ks[0] == "length" && ArrayLength(source.fields[ks[0]]).Some?)
     || WritesLength(source, ks[1..]))
  }

  /** The length of the array after the writes of `ks`, starting from length `len`. */
  function WrittenLength(source: Obj, ks: seq<string>, len: nat): nat
    decreases |ks|
  {
    if ks == [] then len
    else if ks[0] !in source.fields then WrittenLength(source, ks[1..], len)
    else if ks[0] == "length" then
      match ArrayLength(source.fields[ks[0]])
      case Some(n) => WrittenLength(source, ks[1..], n)
      case None => WrittenLength(source, ks[1..], len)
    else if ArrayIndexKey(ks[0]) then
      var i := DigitsValue(ks[0]);
      WrittenLength(source, ks[1..], if i < len then len else i + 1)
    else WrittenLength(source, ks[1..], len)
  }

  /**
   * The element at `j` as the writes of `ks` leave it, whatever the array
   * held: the last value written there, a hole where a shorter length cut
   * it off, or `None` when the original element survives.
   */
  function WrittenCell(source: Obj, ks: seq<string>, j: nat): Option<Json>
    decreases |ks|
  {
    if ks == [] then None
    else
      var later := WrittenCell(source, ks[1..], j);
      if later.Some? || ks[0] !in source.fields then later
      else if ks[0] == "length" then
        match ArrayLength(source.fields[ks[0]])
        case Some(n) => if n <= j then Some(JNull) else None
        case None => None
      else if ArrayIndexKey(ks[0]) && DigitsValue(ks[0]) == j then Some(source.fields[ks[0]])
      else None
  }

  /** The element at `j` after the writes: the written value, otherwise the original one (a hole past its end). */
  function AssignedCell(items: seq<Json>, source: Obj, ks: seq<string>, j: nat): Json {
    var w := WrittenCell(source, ks, j);
    if w.Some? then w.value else Kept(items, j)
  }

  /**
   * `Object.assign` onto an array fails exactly when the source writes an
   * invalid `length`; otherwise the array has the length the writes give
   * it, each element written keeps the last value written, and every
   * other element is the original one or a hole.
   */
  lemma {:induction false} AssignArrayShape(items: seq<Json>, source: Obj, ks: seq<string>)
    ensures AssignArray(items, source, ks).Ok? <==> LengthsValid(source, ks)
    ensures AssignArray(items, source, ks).Err? ==> AssignArray(items, source, ks).error == BadArrayLength
    ensures AssignArray(items, source, ks).Ok? ==>
      var r := AssignArray(items, source, ks).value;
      |r| == WrittenLength(source, ks, |items|)
      && forall j :: 0 <= j < |r| ==> r[j] == AssignedCell(items, source, ks, j)
    decreases |ks|
  {
    if ks == [] {
    } else if ks[0] !in source.fields {
      AssignArrayShape(items, source, ks[1..]);
    } else {
      var k := ks[0];
      var v := source.fields[k];
      match ArrayWrite(items, k, v)
      case Err(e) =>
      case Ok(next) =>
        AssignArrayShape(next, source, ks[1..]);
        if AssignArray(items, source, ks).Ok? {
          var r := AssignArray(items, source, ks).value;
          forall j | 0 <= j < |r| ensures r[j] == AssignedCell(items, source, ks, j) {
            assert r[j] == AssignedCell(next, source, ks[1..], j);
          }
        }
    }
  }

  /** The length after the writes is the last length set outright, raised by the indexes written after it. */
  lemma {:induction false} WrittenLengthShape(source: Obj, ks: seq<string>, len: nat)
    ensures WrittenLength(source, ks, len) ==
      if WritesLength(source, ks) then WrittenLength(source, ks, 0)
      else if len < WrittenLength(source, ks, 0) then WrittenLength(source, ks, 0) else len
    decreases |ks|
  {
    if ks != [] {
      var rest := ks[1..];
      if ks[0] !in source.fields {
        WrittenLengthShape(source, rest, len);
        WrittenLengthShape(source, rest, 0);
      } else if ks[0] == "length" {
        WrittenLengthShape(source, rest, len);
        WrittenLengthShape(source, rest, 0);
      } else if ArrayIndexKey(ks[0]) {
        var i := DigitsValue(ks[0]);
        WrittenLengthShape(source, rest, if i < len then len else i + 1);
        WrittenLengthShape(source, rest, i + 1);
        WrittenLengthShape(source, rest, 0);
      } else {
        WrittenLengthShape(source, rest, len);
        WrittenLengthShape(source, rest, 0);
      }
    }
  }

  /** Assigning the same source to an array a second time changes nothing. */
  lemma AssignArrayAgain(items: seq<Json>, source: Obj, ks: seq<string>)
    requires AssignArray(items, source, ks).Ok?
    ensures AssignArray(AssignArray(items, source, ks).value, source, ks) == AssignArray(items, source, ks)
  {
    var r := AssignArray(items, source, ks).value;
    AssignArrayShape(items, source, ks);
    AssignArrayShape(r, source, ks);
    WrittenLengthShape(source, ks, |items|);
    WrittenLengthShape(source, ks, |r|);
    var r2 := AssignArray(r, source, ks).value;
    assert |r2| == |r|;
    forall j | 0 <= j < |r| ensures r2[j] == r[j] {
      assert r2[j] == AssignedCell(r, source, ks, j);
    }
    assert r2 == r;
  }

  /** Array props take index writes and `length`; an invalid length is an error. */
  lemma ArrayPropsWritten()
    ensures MergeProps(Some(JArr([JNum(1), JNum(2)])), Obj(["0"], map["0" := JNum(5)]))
      == Ok(Some(JArr([JNum(5), JNum(2)])))
    ensures MergeProps(Some(JArr([JNum(1), JNum(2)])), Obj(["length"], map["length" := JNum(-1)]))
      == Err(BadArrayLength)
    ensures MergeProps(Some(JArr([JNum(1), JNum(2)])), Obj(["length"], map["length" := JNum(1)]))
      == Ok(Some(JArr([JNum(1)])))
    ensures MergeProps(Some(JArr([JNum(1)])), Obj(["2"], map["2" := JNum(7)]))
      == Ok(Some(JArr([JNum(1), JNull, JNum(7)])))
  {
    var a := [JNum(1), JNum(2)];
    assert DigitsValue("0") == 0 && NatStr(0) == "0";
    assert DigitsValue("2") == 2 && NatStr(2) == "2";
    assert ["0"][1..] == [] && ["2"][1..] == [] && ["length"][1..] == [];
    assert "0" != "length" && "2" != "length" by { assert |"length"| == 6; }
    assert ArrayIndexKey("0") && ArrayIndexKey("2");
    assert ArrayLength(JNum(1)) == Some(1);
    assert a[0 := JNum(5)] == [JNum(5), JNum(2)];
    assert a[..1] == [JNum(1)];
    assert seq(1, _ => JNull) == [JNull];
    assert SetElement([JNum(1)], 2, JNum(7)) == [JNum(1)] + [JNull] + [JNum(7)] == [JNum(1), JNull, JNum(7)];
    assert ArrayWrite(a, "0", JNum(5)) == Ok([JNum(5), JNum(2)]);
    assert AssignArray(a, Obj(["0"], map["0" := JNum(5)]), ["0"]) == Ok([JNum(5), JNum(2)]);
    assert ArrayWrite(a, "length", JNum(-1)) == Err(BadArrayLength);
    assert ArrayWrite(a, "length", JNum(1)) == Ok([JNum(1)]);
    assert AssignArray(a, Obj(["length"], map["length" := JNum(1)]), ["length"]) == Ok([JNum(1)]);
    assert ArrayWrite([JNum(1)], "2", JNum(7)) == Ok([JNum(1), JNull, JNum(7)]);
    assert AssignArray([JNum(1)], Obj(["2"], map["2" := JNum(7)]), ["2"]) == Ok([JNum(1), JNull, JNum(7)]);
  }

  /** Merging the same props into the props a merge produced changes nothing. */
  lemma MergePropsAgain(current: Option<Json>, source: Obj, merged: Json)
    requires WfObj(source)
    requires MergeProps(current, source) == Ok(Some(merged))
    ensures MergeProps(Some(merged), source) == Ok(Some(merged))
  {
    if !Truthy(current) {
      AssignIdempotent(EmptyObj, source);
    } else if current.value.JObj? {
      AssignIdempotent(current.value.obj, source);
    } else {
      AssignArrayAgain(current.value.items, source, source.keys);
    }
  }

  /** Applying the same props update twice gives the same tree and description as applying it once. */
  lemma UpdateIdempotent(tree: Obj, path: string, props: Json)
    requires ApplyUpdate(tree, path, props).Ok?
    ensures ApplyUpdate(ApplyUpdate(tree, path, props).value.tree, path, props) == ApplyUpdate(tree, path, props)
  {
    var target := UpdateTarget(tree, path).value;
    var loc := target.0;
    var node := target.1.value.obj;
    var source := AsSource(props);
    var merged := MergeProps(Get(node, "props"), source).value;
    var updated := if merged.Some? then Put(node, "props", merged.value) else node;
    var t := PutNode(tree, loc, updated);
    assert ApplyUpdate(tree, path, props).value.tree == t;
    TargetAfterPutNode(tree, path, updated);
    if merged.Some? {
      MergePropsAgain(Get(node, "props"), source, merged.value);
      PutSelf(updated, "props", merged.value);
    }
    PutNodeSame(t, loc, updated);
  }

  /** `$` has no keys: it names the root. */
  lemma RootPathKeys()
    ensures PathKeys("$") == []
  {
    assert StripRoot("$") == [];
  }

  /**
   * Updating the props of a node whose props are absent, falsy or an
   * object succeeds, and afterwards the node's props give every key of the
   * update its new value and keep every other prop; the node's other
   * fields and the rest of the tree do not change.
   */
  lemma UpdateMergesProps(tree: Obj, path: string, props: Json, node: Obj)
    requires At(JObj(tree), PathKeys(path)) == Some(JObj(node))
    requires "component" in node.fields
    requires !Truthy(Get(node, "props")) || Get(node, "props").value.JObj?
    ensures ApplyUpdate(tree, path, props).Ok?
    ensures var r := ApplyUpdate(tree, path, props).value.tree;
      var n := At(JObj(r), PathKeys(path));
      n.Some? && n.value.JObj?
      && (forall f :: f != "props" ==> Get(n.value.obj, f) == Get(node, f))
      && Get(n.value.obj, "props").Some? && Get(n.value.obj, "props").value.JObj?
      && (forall k :: Get(Get(n.value.obj, "props").value.obj, k) ==
            if k in AsSource(props).fields then Some(AsSource(props).fields[k])
            else if Truthy(Get(node, "props")) then Get(Get(node, "props").value.obj, k)
            else None)
    ensures forall other :: Diverge(PathKeys(path), other) ==>
      At(JObj(ApplyUpdate(tree, path, props).value.tree), other) == At(JObj(tree), other)
  {
    UpdateAtNode(tree, path, props, node);
    var loc := PathKeys(path);
    var source := AsSource(props);
    var base := if !Truthy(Get(node, "props")) then EmptyObj else Get(node, "props").value.obj;
    AssignSpec(base, source);
    forall other | Diverge(loc, other)
      ensures At(JObj(ApplyUpdate(tree, path, props).value.tree), other) == At(JObj(tree), other)
    {
      PutNodeFrame(tree, loc, Put(node, "props", JObj(Assign(base, source))), other);
    }
  }

  /** An update of a node whose props are absent, falsy or an object writes the merged props into that node. */
  lemma UpdateAtNode(tree: Obj, path: string, props: Json, node: Obj)
    requires At(JObj(tree), PathKeys(path)) == Some(JObj(node))
    requires "component" in node.fields
    requires !Truthy(Get(node, "props")) || Get(node, "props").value.JObj?
    ensures ApplyUpdate(tree, path, props).Ok?
    ensures var base := if !Truthy(Get(node, "props")) then EmptyObj else Get(node, "props").value.obj;
      ApplyUpdate(tree, path, props).value.tree == PutNode(tree, PathKeys(path), Put(node, "props", JObj(Assign(base, AsSource(props)))))
  {
    if path == "$" {
      RootPathKeys();
    } else {
      WalkFindsAt(JObj(tree), PathKeys(path));
    }
    assert UpdateTarget(tree, path) == Ok((PathKeys(path), Some(JObj(node))));
  }
}
