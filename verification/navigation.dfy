/**
 * Reading and rewriting the UI tree along a sequence of keys. `At` and
 * `SetAt` are the reference semantics of "the value at this location" and
 * "the tree with the value at this location replaced", which the in-place
 * mutations of the patch engine amount to on its private deep copy.
 * `NavigateToPath` is `navigateToPath` of `modifyUI.ts`.
 */
module Navigation {
  import opened Wrappers
  import opened JsonValue
  import opened PathSyntax
  import opened Text

  /** `v[k]` for an object or an array; nothing for other values. */
  function Step(v: Json, k: Key): Option<Json> {
    match v
    case JObj(o) => Get(o, PropName(k))
    case JArr(items) => if k.Index? && k.index < |items| then Some(items[k.index]) else None
    case _ => None
  }

  /** The value found by following `ks` from `v`, if every step finds one. */
  function At(v: Json, ks: seq<Key>): Option<Json>
    decreases |ks|
  {
    if ks == [] then Some(v)
    else match Step(v, ks[0])
      case None => None
      case Some(w) => At(w, ks[1..])
  }

  /** `v` with the value at `ks` replaced by `x`; everything else is kept, including key order. */
  function SetAt(v: Json, ks: seq<Key>, x: Json): (r: Json)
    requires At(v, ks).Some?
    ensures ks != [] ==> (r.JObj? <==> v.JObj?) && (r.JArr? <==> v.JArr?)
    ensures ks != [] && v.JObj? ==> r.obj.keys == v.obj.keys
    ensures ks != [] && v.JArr? ==> |r.items| == |v.items|
    decreases |ks|
  {
    if ks == [] then x
    else if v.JObj? then
      var name := PropName(ks[0]);
      JObj(Obj(v.obj.keys, v.obj.fields[name := SetAt(v.obj.fields[name], ks[1..], x)]))
    else
      var i := ks[0].index;
      JArr(v.items[i := SetAt(v.items[i], ks[1..], x)])
  }

  /** After replacing the value at `ks`, that value is found there. */
  lemma {:induction false} AtSetAt(v: Json, ks: seq<Key>, x: Json)
    requires At(v, ks).Some?
    ensures At(SetAt(v, ks, x), ks) == Some(x)
    decreases |ks|
  {
    if ks != [] {
      var w := Step(v, ks[0]).value;
      AtSetAt(w, ks[1..], x);
    }
  }

  /** Two key sequences that part ways: at some depth they read different property names. */
  predicate Diverge(ks: seq<Key>, other: seq<Key>)
    decreases |ks|
  {
    ks != [] && other != []
    && (PropName(ks[0]) != PropName(other[0]) || Diverge(ks[1..], other[1..]))
  }

  /** Replacing the value at `ks` leaves every location that parts ways with `ks` unchanged. */
  lemma {:induction false} SetAtFrame(v: Json, ks: seq<Key>, x: Json, other: seq<Key>)
    requires At(v, ks).Some?
    requires Diverge(ks, other)
    ensures At(SetAt(v, ks, x), other) == At(v, other)
    decreases |ks|
  {
    var r := SetAt(v, ks, x);
    StepAfterSetAt(v, ks, x, other[0]);
    if PropName(ks[0]) == PropName(other[0]) && Step(v, other[0]).Some? {
      SetAtFrame(Step(v, ks[0]).value, ks[1..], x, other[1..]);
    }
  }

  /** One step into a rewritten value: only the step along the rewritten path sees a change. */
  lemma StepAfterSetAt(v: Json, ks: seq<Key>, x: Json, k: Key)
    requires At(v, ks).Some? && ks != []
    ensures PropName(k) != PropName(ks[0]) ==> Step(SetAt(v, ks, x), k) == Step(v, k)
    ensures PropName(k) == PropName(ks[0]) ==>
      Step(SetAt(v, ks, x), k) == (if Step(v, k).Some? then Some(SetAt(Step(v, ks[0]).value, ks[1..], x)) else None)
    ensures PropName(k) == PropName(ks[0]) && Step(v, k).Some? ==> Step(v, k) == Step(v, ks[0])
  {
    if v.JArr? && k.Index? && PropName(k) == PropName(ks[0]) {
      NatStrInjective(k.index, ks[0].index);
    }
  }

  /** Replacing a value by itself changes nothing. */
  lemma {:induction false} SetAtSame(v: Json, ks: seq<Key>)
    requires At(v, ks).Some?
    ensures SetAt(v, ks, At(v, ks).value) == v
    decreases |ks|
  {
    if ks != [] {
      var w := Step(v, ks[0]).value;
      SetAtSame(w, ks[1..]);
      if v.JObj? {
        assert v.obj.fields[PropName(ks[0]) := w] == v.obj.fields;
      } else {
        assert v.items[ks[0].index := w] == v.items;
      }
    }
  }

  /** The outcome of `navigateToPath`: the value reached (possibly `undefined`), or the part it could not read. */
  datatype Walked = Reached(target: Option<Json>) | Stuck(at: nat)

  /**
   * Following keys one by one: each step needs the current value to be an
   * object or an array (`current && typeof current === 'object'`); reading
   * a missing property gives `undefined`, which the next step cannot read.
   */
  function Walk(current: Option<Json>, ks: seq<Key>): (w: Walked)
    ensures w.Stuck? ==> w.at < |ks|
    ensures current.Some? && w.Reached? && w.target.Some? ==> At(current.value, ks) == w.target
    decreases |ks|
  {
    if ks == [] then Reached(current)
    else if IsObjectLike(current) then
      match Walk(Step(current.value, ks[0]), ks[1..])
      case Reached(t) => Reached(t)
      case Stuck(i) => Stuck(i + 1)
    else Stuck(0)
  }

  /** Everything found by `At` is reached by `Walk`. */
  lemma {:induction false} WalkFindsAt(v: Json, ks: seq<Key>)
    requires At(v, ks).Some?
    ensures Walk(Some(v), ks) == Reached(At(v, ks))
    decreases |ks|
  {
    if ks != [] {
      WalkFindsAt(Step(v, ks[0]).value, ks[1..]);
    }
  }

  /** Why the patch engine could not apply an operation; each case carries what its message names. */
  datatype NavError = CannotNavigate(path: string, part: string)

  /** `Cannot navigate to path: ${path} (failed at ${parts[i]})`. */
  function NavMessage(e: NavError): string {
    "Cannot navigate to path: " + e.path + " (failed at " + e.part + ")"
  }

  /** What `navigateToPath(tree, path)` returns or throws, as a function of the tree and the path. */
  function Navigate(tree: Obj, path: string): Result<Option<Json>, NavError> {
    var parts := Parts(path);
    match Walk(Some(JObj(tree)), KeysOf(parts))
    case Reached(t) => Ok(t)
    case Stuck(i) => Err(CannotNavigate(path, parts[i]))
  }

  /** A value found by `Navigate` is the value at the path's keys. */
  lemma NavigateFindsAt(tree: Obj, path: string)
    requires Navigate(tree, path).Ok? && Navigate(tree, path).value.Some?
    ensures At(JObj(tree), PathKeys(path)) == Navigate(tree, path).value
  {
  }

  /** The canonical path of an existing location navigates to the value there. */
  lemma NavigateRendered(tree: Obj, ks: seq<Key>)
    requires AllPlain(ks)
    requires At(JObj(tree), ks).Some?
    ensures Navigate(tree, Render(ks)) == Ok(At(JObj(tree), ks))
  {
    PathKeysOfRender(ks);
    WalkFindsAt(JObj(tree), ks);
  }

  /**
   * `navigateToPath`: split the path into parts and walk down from the
   * root, remembering the part being read, until the parts run out or a
   * value cannot be read from.
   */
  method NavigateToPath(tree: Obj, path: string) returns (r: Result<Option<Json>, NavError>)
    ensures r == Navigate(tree, path)
  {
    var parts := Parts(path);
    var keys := KeysOf(parts);
    var current: Option<Json> := Some(JObj(tree));
    var i := 0;
    while i < |parts|
      invariant 0 <= i <= |parts|
      invariant Walk(Some(JObj(tree)), keys) ==
        match Walk(current, keys[i..])
        case Reached(t) => Reached(t)
        case Stuck(j) => Stuck(j + i)
    {
      if IsObjectLike(current) {
        assert keys[i..][1..] == keys[i + 1..];
        current := Step(current.value, KeyOf(parts[i]));
      } else {
        return Err(CannotNavigate(path, parts[i]));
      }
      i := i + 1;
    }
    assert keys[i..] == [];
    return Ok(current);
  }
}
