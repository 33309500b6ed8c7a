/**
 * JSON values as the TypeScript code handles them at run time. The UI tree,
 * tool arguments and request bodies are untyped JSON, and the validator and
 * the patch engine inspect them dynamically (is `component` a string, are
 * `props` an object, are `children` an array), so the model keeps them
 * dynamic too. An object keeps the insertion order of its keys, which
 * `Object.keys` and `Object.assign` follow.
 */
module JsonValue {
  import opened Wrappers
  import opened Text

  datatype Json =
    | JNull
    | JBool(b: bool)
    | JNum(n: int)
    | JStr(s: string)
    | JArr(items: seq<Json>)
    | JObj(obj: Obj)

  /** An object: its own keys in insertion order and their values. */
  datatype Obj = Obj(keys: seq<string>, fields: map<string, Json>)

  const EmptyObj: Obj := Obj([], map[])

  /**
   * A TypeError raised by the JavaScript engine: reading a property of
   * `null` or `undefined`, calling a method a value does not have, or
   * writing a property of a primitive (modules run in strict mode).
   */
  datatype EngineFault = TypeError

  /** Keys are listed once each, and exactly the keys that have values are listed. */
  ghost predicate WfObj(o: Obj) {
    (forall i, j :: 0 <= i < j < |o.keys| ==> o.keys[i] != o.keys[j])
    && (forall k :: k in o.fields <==> k in o.keys)
  }

  function Get(o: Obj, k: string): Option<Json> {
    if k in o.fields then Some(o.fields[k]) else None
  }

  /** `o[k] = v`: an existing key keeps its place, a new key goes last. */
  function Put(o: Obj, k: string, v: Json): (r: Obj)
    ensures Get(r, k) == Some(v)
    ensures forall j :: j != k ==> Get(r, j) == Get(o, j)
    ensures |o.keys| <= |r.keys| && r.keys[..|o.keys|] == o.keys
    ensures k in o.fields ==> r.keys == o.keys
    ensures WfObj(o) ==> WfObj(r)
  {
    Obj(if k in o.fields then o.keys else o.keys + [k], o.fields[k := v])
  }

  /** `Object.assign(target, source)`: the source's entries copied in the source's key order. */
  function Assign(target: Obj, source: Obj): Obj {
    AssignKeys(target, source, source.keys)
  }

  function AssignKeys(t: Obj, source: Obj, ks: seq<string>): Obj
    decreases |ks|
  {
    if ks == [] then t
    else AssignKeys(if ks[0] in source.fields then Put(t, ks[0], source.fields[ks[0]]) else t, source, ks[1..])
  }

  /** Copying entries keeps the target's existing keys first, in their order, and keeps it well formed. */
  lemma {:induction false} AssignKeysShape(t: Obj, source: Obj, ks: seq<string>)
    ensures var r := AssignKeys(t, source, ks);
      |t.keys| <= |r.keys| && r.keys[..|t.keys|] == t.keys && (WfObj(t) ==> WfObj(r))
    decreases |ks|
  {
    if ks != [] {
      var t' := if ks[0] in source.fields then Put(t, ks[0], source.fields[ks[0]]) else t;
      AssignKeysShape(t', source, ks[1..]);
      var r := AssignKeys(t, source, ks);
      assert r.keys[..|t.keys|] == r.keys[..|t'.keys|][..|t.keys|];
    }
  }

  lemma {:induction false} AssignKeysFields(t: Obj, source: Obj, ks: seq<string>)
    ensures forall k :: (Get(AssignKeys(t, source, ks), k) ==
      if k in ks && k in source.fields then Some(source.fields[k]) else Get(t, k))
    decreases |ks|
  {
    if ks != [] {
      var t' := if ks[0] in source.fields then Put(t, ks[0], source.fields[ks[0]]) else t;
      AssignKeysFields(t', source, ks[1..]);
      forall k ensures Get(AssignKeys(t, source, ks), k) ==
        (if k in ks && k in source.fields then Some(source.fields[k]) else Get(t, k))
      {
        assert k in ks <==> k == ks[0] || k in ks[1..];
      }
    }
  }

  /**
   * After `Object.assign(target, source)` every key of the source has the
   * source's value, every other key keeps the target's value, and the
   * target's keys still come first in their old order.
   */
  lemma AssignSpec(target: Obj, source: Obj)
    requires WfObj(source)
    ensures forall k :: (Get(Assign(target, source), k) ==
      if k in source.fields then Some(source.fields[k]) else Get(target, k))
    ensures var r := Assign(target, source);
      |target.keys| <= |r.keys| && r.keys[..|target.keys|] == target.keys
    ensures WfObj(target) ==> WfObj(Assign(target, source))
  {
    AssignKeysFields(target, source, source.keys);
    AssignKeysShape(target, source, source.keys);
  }

  /** Assigning into a fresh `{}` gives a copy with the same entries in the same order. */
  lemma {:induction false} AssignIntoEmpty(source: Obj)
    requires WfObj(source)
    ensures Assign(EmptyObj, source) == source
  {
    AssignKeysFields(EmptyObj, source, source.keys);
    AssignEmptyKeys(EmptyObj, source, source.keys);
    SameEntries(Assign(EmptyObj, source), source);
  }

  /** Two objects with the same key list and the same value under every key are equal. */
  lemma SameEntries(a: Obj, b: Obj)
    requires a.keys == b.keys
    requires forall k :: Get(a, k) == Get(b, k)
    ensures a == b
  {
    assert a.fields.Keys == b.fields.Keys by {
      forall k ensures k in a.fields <==> k in b.fields {
        assert Get(a, k) == Get(b, k);
      }
    }
    forall k | k in a.fields ensures a.fields[k] == b.fields[k] {
      assert Get(a, k) == Get(b, k);
    }
  }

  /** The keys `ks` are distinct, all present in `source` and all absent from `t`. */
  ghost predicate NewDistinctKeys(t: Obj, source: Obj, ks: seq<string>) {
    (forall i, j :: 0 <= i < j < |ks| ==> ks[i] != ks[j])
    && (forall i :: 0 <= i < |ks| ==> ks[i] in source.fields && ks[i] !in t.fields)
  }

  /** Copying keys that are all new and distinct appends them in order. */
  lemma {:induction false} AssignEmptyKeys(t: Obj, source: Obj, ks: seq<string>)
    requires NewDistinctKeys(t, source, ks)
    ensures AssignKeys(t, source, ks).keys == t.keys + ks
    decreases |ks|
  {
    if ks != [] {
      var t' := NewKeysRest(t, source, ks);
      AssignEmptyKeys(t', source, ks[1..]);
      AppendFirst(t.keys, ks);
    }
  }

  lemma AppendFirst(a: seq<string>, ks: seq<string>)
    requires ks != []
    ensures (a + [ks[0]]) + ks[1..] == a + ks
  {
    assert ks == [ks[0]] + ks[1..];
  }

  /** Copying the first of the new keys appends it, and the remaining keys are still new and distinct. */
  lemma NewKeysRest(t: Obj, source: Obj, ks: seq<string>) returns (t': Obj)
    requires ks != [] && NewDistinctKeys(t, source, ks)
    ensures AssignKeys(t, source, ks) == AssignKeys(t', source, ks[1..])
    ensures t'.keys == t.keys + [ks[0]]
    ensures NewDistinctKeys(t', source, ks[1..])
  {
    assert ks[0] in source.fields && ks[0] !in t.fields;
    t' := Put(t, ks[0], source.fields[ks[0]]);
    forall i | 0 <= i < |ks[1..]|
      ensures ks[1..][i] in source.fields && ks[1..][i] !in t'.fields
    {
      assert ks[1..][i] == ks[i + 1];
    }
    forall i, j | 0 <= i < j < |ks[1..]| ensures ks[1..][i] != ks[1..][j] {
      assert ks[1..][i] == ks[i + 1] && ks[1..][j] == ks[j + 1];
    }
  }

  /** JavaScript truthiness; an absent value is `undefined`, which is falsy. */
  predicate Truthy(v: Option<Json>) {
    match v
    case None => false
    case Some(j) =>
      match j
      case JNull => false
      case JBool(b) => b
      case JNum(n) => n != 0
      case JStr(s) => s != ""
      case _ => true
  }

  /**
   * `v.name` for a value that is not `null`: an own property of an object.
   * The property names the core reads (`component`, `props`, `children`,
   * `type`, `text`, ...) are not properties of any other JSON value.
   */
  function Field(v: Json, name: string): Option<Json> {
    if v.JObj? then Get(v.obj, name) else None
  }

  /** `typeof v === 'object' && v !== null`. */
  predicate IsObjectLike(v: Option<Json>) {
    v.Some? && (v.value.JObj? || v.value.JArr?)
  }

  /** `String(v)`, as a template literal renders an interpolated value. */
  function JsString(v: Option<Json>): string {
    match v
    case None => "undefined"
    case Some(j) => ValueString(j)
  }

  function ValueString(j: Json): string
    decreases j
  {
    match j
    case JNull => "null"
    case JBool(b) => if b then "true" else "false"
    case JNum(n) => IntStr(n)
    case JStr(s) => s
    case JObj(_) => "[object Object]"
    case JArr(items) => JoinItems(items, j)
  }

  /** `Array.prototype.join` with ","; `null` elements render as the empty string. */
  function JoinItems(items: seq<Json>, ghost whole: Json): string
    requires forall i :: 0 <= i < |items| ==> items[i] < whole
    decreases whole, |items|
  {
    if items == [] then ""
    else
      (if items[0] == JNull then "" else ValueString(items[0]))
      + (if |items| > 1 then "," + JoinItems(items[1..], whole) else "")
  }

  /**
   * `Object.assign` and `Object.keys` read a value as a source object: a
   * string contributes its characters under the keys "0", "1", ...; an
   * array its elements under their indices; numbers, booleans and `null`
   * contribute nothing.
   */
  function AsSource(v: Json): (o: Obj)
    ensures WfObj(o)
  {
    match v
    case JObj(o) => if WfKeys(o) then o else EmptyObj
    case JStr(s) =>
      var chars := seq(|s|, i requires 0 <= i < |s| => JStr([s[i]]));
      IndexedObjSpec(chars);
      IndexedObj(chars)
    case JArr(items) =>
      IndexedObjSpec(items);
      IndexedObj(items)
    case _ => EmptyObj
  }

  /** Whether an object's key list is well formed (the executable form of `WfObj`). */
  predicate WfKeys(o: Obj)
    ensures WfKeys(o) <==> WfObj(o)
  {
    (forall i, j :: 0 <= i < j < |o.keys| ==> o.keys[i] != o.keys[j])
    && (forall k :: k in o.fields ==> k in o.keys)
    && (forall i :: 0 <= i < |o.keys| ==> o.keys[i] in o.fields)
  }

  /** An object whose keys are the indices "0", "1", ... of the given values. */
  function IndexedObj(values: seq<Json>): Obj
    decreases |values|
  {
    if values == [] then EmptyObj
    else
      var prefix := IndexedObj(values[..|values| - 1]);
      var k := NatStr(|values| - 1);
      Obj(prefix.keys + [k], prefix.fields[k := values[|values| - 1]])
  }

  /** The indexed object is well formed and lists the values under their indices. */
  lemma {:induction false} IndexedObjSpec(values: seq<Json>)
    ensures WfObj(IndexedObj(values)) && IndexedEntries(IndexedObj(values), values)
    decreases |values|
  {
    if values != [] {
      var front := values[..|values| - 1];
      var v := values[|values| - 1];
      IndexedObjSpec(front);
      var prefix := IndexedObj(front);
      assert IndexedObj(values) == Obj(prefix.keys + [NatStr(|front|)], prefix.fields[NatStr(|front|) := v]);
      FreshIndex(prefix, front);
      AppendFresh(prefix, NatStr(|front|), v);
      IndexedSnoc(prefix, front, v);
      assert front + [v] == values;
    }
  }

  /** `o` lists exactly `values`, in order, under the keys "0", "1", .... */
  ghost predicate IndexedEntries(o: Obj, values: seq<Json>) {
    |o.keys| == |values|
    && forall i :: 0 <= i < |values| ==> o.keys[i] == NatStr(i) && o.keys[i] in o.fields && o.fields[o.keys[i]] == values[i]
  }

  /** The next index is not yet a key of an indexed object. */
  lemma FreshIndex(o: Obj, values: seq<Json>)
    requires WfObj(o) && IndexedEntries(o, values)
    ensures NatStr(|values|) !in o.fields
  {
    var k := NatStr(|values|);
    if k in o.fields {
      var i :| 0 <= i < |o.keys| && o.keys[i] == k;
      NatStrInjective(i, |values|);
    }
  }

  /** Appending the next index extends the listed entries by one value. */
  lemma IndexedSnoc(o: Obj, values: seq<Json>, v: Json)
    requires IndexedEntries(o, values) && NatStr(|values|) !in o.fields
    ensures IndexedEntries(Obj(o.keys + [NatStr(|values|)], o.fields[NatStr(|values|) := v]), values + [v])
  {
  }

  /** Appending a key that is not yet present keeps an object well formed. */
  lemma AppendFresh(o: Obj, k: string, v: Json)
    requires WfObj(o) && k !in o.fields
    ensures WfObj(Obj(o.keys + [k], o.fields[k := v]))
  {
  }
}
