/**
 * The JSONPath-like addresses of the UI tree: `$` is the root,
 * `$.children[0].props` goes down by property names and array indices.
 * Two readings of a path exist in the patch engine: the tokeniser used to
 * walk to a node, and the `children[N]` suffix split used to find the
 * parent and the slot for add, remove and replace.
 */
module PathSyntax {
  import opened Wrappers
  import opened Text

  /** A step of a path: a property name, or an array index (a part made only of digits). */
  datatype Key = Name(name: string) | Index(index: nat)

  /** The property name a key reads: an index is read through its decimal text. */
  function PropName(k: Key): string {
    match k
    case Name(n) => n
    case Index(i) => NatStr(i)
  }

  predicate IsSeparator(c: char) { c == '.' || c == '[' || c == ']' }

  /** `path.replace(/^\$\.?/, '')`: a leading `$` and the `.` right after it are dropped. */
  function StripRoot(path: string): (r: string)
    ensures |r| <= |path| && r == path[|path| - |r|..]
  {
    if |path| >= 2 && path[0] == '$' && path[1] == '.' then path[2..]
    else if |path| >= 1 && path[0] == '$' then path[1..]
    else path
  }

  /**
   * `s.split(/\.|\[|\]/).filter(Boolean)`, with `current` the part read so
   * far: the maximal non-empty runs of characters other than `.`, `[`, `]`.
   */
  function PartsFrom(s: string, current: string): (parts: seq<string>)
    ensures forall i :: 0 <= i < |parts| ==> parts[i] != []
    decreases |s|
  {
    if s == [] then (if current == [] then [] else [current])
    else if IsSeparator(s[0]) then (if current == [] then [] else [current]) + PartsFrom(s[1..], [])
    else PartsFrom(s[1..], current + [s[0]])
  }

  /** The parts of a path, as `navigateToPath` splits it. */
  function Parts(path: string): (parts: seq<string>)
    ensures forall i :: 0 <= i < |parts| ==> parts[i] != []
  {
    PartsFrom(StripRoot(path), [])
  }

  /** A part made only of digits becomes an array index (`parseInt`), any other a property name. */
  function KeyOf(part: string): (k: Key)
    ensures PropName(k) == part || AllDigits(part)
  {
    if AllDigits(part) then Index(DigitsValue(part)) else Name(part)
  }

  function KeysOf(parts: seq<string>): (ks: seq<Key>)
    ensures |ks| == |parts|
    ensures forall i :: 0 <= i < |parts| ==> ks[i] == KeyOf(parts[i])
  {
    seq(|parts|, i requires 0 <= i < |parts| => KeyOf(parts[i]))
  }

  /** The keys `navigateToPath` follows for a path. */
  function PathKeys(path: string): seq<Key> {
    KeysOf(Parts(path))
  }

  // ----- Rendering keys back to text -----

  /** A property name that the tokeniser reads back as itself. */
  predicate PlainName(n: string) {
    n != [] && !AllDigits(n) && forall i :: 0 <= i < |n| ==> !IsSeparator(n[i])
  }

  predicate PlainKey(k: Key) {
    k.Index? || PlainName(k.name)
  }

  /** Every key of the sequence is plain. */
  predicate AllPlain(ks: seq<Key>) {
    ks == [] || (PlainKey(ks[0]) && AllPlain(ks[1..]))
  }

  function Segment(k: Key): string {
    match k
    case Name(n) => "." + n
    case Index(i) => "[" + NatStr(i) + "]"
  }

  function Segments(ks: seq<Key>): string
    decreases |ks|
  {
    if ks == [] then "" else Segment(ks[0]) + Segments(ks[1..])
  }

  /** The canonical path of a key sequence: `$` followed by `.name` and `[index]` segments. */
  function Render(ks: seq<Key>): (path: string)
    ensures |path| >= 1 && path[0] == '$'
  {
    "$" + Segments(ks)
  }

  lemma DigitsHaveNoSeparator(s: string)
    requires AllDigits(s)
    ensures forall i :: 0 <= i < |s| ==> !IsSeparator(s[i])
  {
  }

  /** Reading a run of ordinary characters extends the current part. */
  lemma {:induction false} PartsFromPlain(body: string, rest: string, current: string)
    requires forall i :: 0 <= i < |body| ==> !IsSeparator(body[i])
    ensures PartsFrom(body + rest, current) == PartsFrom(rest, current + body)
    decreases |body|
  {
    if body != [] {
      assert (body + rest)[0] == body[0];
      assert (body + rest)[1..] == body[1..] + rest;
      assert current + [body[0]] + body[1..] == current + body;
      PartsFromPlain(body[1..], rest, current + [body[0]]);
    } else {
      assert body + rest == rest && current + body == current;
    }
  }

  /** The text of each key, as the tokeniser reads it. */
  function Texts(ks: seq<Key>): (ts: seq<string>)
    ensures |ts| == |ks|
    ensures forall i :: 0 <= i < |ks| ==> ts[i] == PropName(ks[i])
  {
    if ks == [] then [] else [PropName(ks[0])] + Texts(ks[1..])
  }

  /** The parts of a rendered key sequence are the text of its keys. */
  lemma {:induction false} PartsOfSegments(ks: seq<Key>)
    requires AllPlain(ks)
    ensures PartsFrom(Segments(ks), []) == Texts(ks)
    decreases |ks|
  {
    if ks != [] {
      PartsOfSegments(ks[1..]);
      PartsOfFirstSegment(ks[0], ks[1..]);
    }
  }

  lemma PartsOfFirstSegment(k: Key, ks: seq<Key>)
    requires PlainKey(k)
    ensures PartsFrom(Segments([k] + ks), []) == [PropName(k)] + PartsFrom(Segments(ks), [])
  {
    var rest := Segments(ks);
    assert ([k] + ks)[1..] == ks;
    if k.Name? {
      PartsOfName(k.name, ks);
    } else {
      var d := NatStr(k.index);
      DigitsHaveNoSeparator(d);
      var t := d + ("]" + rest);
      assert Segments([k] + ks) == ['['] + t;
      SkipSeparator('[', t, []);
      PartsFromPlain(d, "]" + rest, []);
      assert [] + d == d;
      SkipSeparator(']', rest, d);
    }
  }

  lemma PartsOfName(n: string, ks: seq<Key>)
    requires PlainName(n)
    ensures PartsFrom(Segments([Name(n)] + ks), []) == [n] + PartsFrom(Segments(ks), [])
  {
    var rest := Segments(ks);
    assert ([Name(n)] + ks)[1..] == ks;
    assert Segments([Name(n)] + ks) == ['.'] + (n + rest);
    SkipSeparator('.', n + rest, []);
    PartsFromPlain(n, rest, []);
    assert [] + n == n;
    PartsBoundary(n, ks);
  }

  /** A separator ends the current part, if any. */
  lemma SkipSeparator(c: char, t: string, current: string)
    requires IsSeparator(c)
    ensures PartsFrom([c] + t, current) == (if current == [] then [] else [current]) + PartsFrom(t, [])
  {
    assert ([c] + t)[0] == c && ([c] + t)[1..] == t;
  }

  /** A completed part is emitted when the next segment starts. */
  lemma PartsBoundary(name: string, ks: seq<Key>)
    requires name != []
    ensures PartsFrom(Segments(ks), name) == [name] + PartsFrom(Segments(ks), [])
  {
    if ks != [] {
      var s := Segments(ks);
      assert s[0] == Segment(ks[0])[0];
      assert IsSeparator(s[0]);
    }
  }

  /**
   * Tokenising the canonical path of a key sequence gives the keys back:
   * `navigateToPath` follows exactly the keys a rendered path names.
   */
  lemma PathKeysOfRender(ks: seq<Key>)
    requires AllPlain(ks)
    ensures PathKeys(Render(ks)) == ks
  {
    PartsOfRender(ks);
    var parts := Parts(Render(ks));
    forall i | 0 <= i < |ks| ensures KeyOf(parts[i]) == ks[i] {
      AllPlainAt(ks, i);
      KeyOfPropName(ks[i]);
    }
  }

  lemma {:induction false} AllPlainAt(ks: seq<Key>, i: nat)
    requires AllPlain(ks) && i < |ks|
    ensures PlainKey(ks[i])
  {
    if i > 0 {
      AllPlainAt(ks[1..], i - 1);
    }
  }

  /** A plain key survives being written as text and read back. */
  lemma KeyOfPropName(k: Key)
    requires PlainKey(k)
    ensures KeyOf(PropName(k)) == k
  {
    if k.Index? {
      DigitsValueOfNatStr(k.index);
    }
  }

  lemma PartsOfRender(ks: seq<Key>)
    requires AllPlain(ks)
    ensures Parts(Render(ks)) == Texts(ks)
  {
    if ks == [] {
      assert Render(ks) == "$";
    } else if ks[0].Name? {
      PartsOfRenderFirstName(ks);
    } else {
      StripIndexRoot(ks);
      PartsOfSegments(ks);
    }
  }

  lemma PartsOfRenderFirstName(ks: seq<Key>)
    requires AllPlain(ks)
    requires ks != [] && ks[0].Name?
    ensures Parts(Render(ks)) == Texts(ks)
  {
    var n, t := ks[0].name, ks[1..];
    assert ks == [Name(n)] + t;
    assert AllPlain(t);
    PartsOfRenderName(n, t);
    PartsOfSegments(t);
    assert Texts(ks) == [n] + Texts(t);
  }

  lemma StripIndexRoot(ks: seq<Key>)
    requires ks != [] && ks[0].Index?
    ensures StripRoot(Render(ks)) == Segments(ks)
  {
    var p := Render(ks);
    assert p[1] == Segment(ks[0])[0] == '[';
  }

  lemma PartsOfRenderName(n: string, ks: seq<Key>)
    requires PlainName(n)
    ensures Parts(Render([Name(n)] + ks)) == [n] + PartsFrom(Segments(ks), [])
  {
    var rest := Segments(ks);
    assert ([Name(n)] + ks)[1..] == ks;
    assert Render([Name(n)] + ks) == "$." + (n + rest);
    PartsFromPlain(n, rest, []);
    assert [] + n == n;
    PartsBoundary(n, ks);
  }

  // ----- The `children[N]` suffix -----

  predicate IsLineTerminator(c: char) {
    c == '\n' || c == '\r' || c == '\U{2028}' || c == '\U{2029}'
  }

  /** The length of the run of digits at the end of `s`. */
  function TrailingDigits(s: string): (n: nat)
    ensures n <= |s|
    ensures forall i :: |s| - n <= i < |s| ==> IsDigit(s[i])
    ensures n < |s| ==> !IsDigit(s[|s| - n - 1])
    decreases |s|
  {
    if s != [] && IsDigit(s[|s| - 1]) then TrailingDigits(s[..|s| - 1]) + 1 else 0
  }

  const ChildrenOpen := "children["

  /**
   * `path.match(/^(.*?)\.?children\[(\d+)\]$/)`: the path must end in
   * `children[D]` with `D` a run of digits; what comes before, less one
   * trailing `.`, is the parent path (`$` when empty), and must not contain
   * a line terminator, which `.` does not match. The result is the parent
   * path and `parseInt(D)`.
   */
  function SplitChildSlot(path: string): (r: Option<(string, nat)>)
  {
    if path == [] || path[|path| - 1] != ']' then None
    else SlotOfBody(path[..|path| - 1])
  }

  /** The path less its closing `]`: a run of digits, after the parent's text and `children[`. */
  function SlotOfBody(body: string): Option<(string, nat)> {
    var n := TrailingDigits(body);
    if n == 0 then None
    else
      match SlotParent(body[..|body| - n])
      case None => None
      case Some(parent) => Some((parent, DigitsValue(body[|body| - n..])))
  }

  /** The text before the digits: it must end in `children[`; what precedes it is the parent path. */
  function SlotParent(front: string): Option<string> {
    if !EndsWith(front, ChildrenOpen) then None
    else
      var before := front[..|front| - |ChildrenOpen|];
      if exists i :: 0 <= i < |before| && IsLineTerminator(before[i]) then None
      else
        var parent := if before != [] && before[|before| - 1] == '.' then before[..|before| - 1] else before;
        Some(if parent == [] then "$" else parent)
  }

  predicate EndsWith(s: string, suffix: string) {
    |suffix| <= |s| && s[|s| - |suffix|..] == suffix
  }

  /** The path of child `index` of the node at `parent`, as the patch engine's callers write it. */
  function ChildPath(parent: string, index: nat): string {
    parent + ".children[" + NatStr(index) + "]"
  }

  /** Splitting the path of a child slot gives back the parent path and the index. */
  lemma SplitChildPath(parent: string, index: nat)
    requires parent != [] && parent[|parent| - 1] != '.'
    requires forall i :: 0 <= i < |parent| ==> !IsLineTerminator(parent[i])
    ensures SplitChildSlot(ChildPath(parent, index)) == Some((parent, index))
  {
    var d := NatStr(index);
    var front := parent + "." + ChildrenOpen;
    assert ChildPath(parent, index)[..|ChildPath(parent, index)| - 1] == front + d;
    SlotParentOf(parent);
    SlotOfDigits(front, d);
    DigitsValueOfNatStr(index);
  }

  /** The text `parent.children[` has the parent path `parent`. */
  lemma SlotParentOf(parent: string)
    requires parent != [] && parent[|parent| - 1] != '.'
    requires forall i :: 0 <= i < |parent| ==> !IsLineTerminator(parent[i])
    ensures SlotParent(parent + "." + ChildrenOpen) == Some(parent)
  {
    var front := parent + "." + ChildrenOpen;
    assert front[|front| - |ChildrenOpen|..] == ChildrenOpen;
    var before := front[..|front| - |ChildrenOpen|];
    assert before == parent + ".";
    assert before[..|before| - 1] == parent;
  }

  /** Digits after a front that does not end in a digit are exactly the trailing run. */
  lemma SlotOfDigits(front: string, d: string)
    requires front != [] && !IsDigit(front[|front| - 1])
    requires d != [] && forall i :: 0 <= i < |d| ==> IsDigit(d[i])
    ensures SlotOfBody(front + d) == if SlotParent(front).Some? then Some((SlotParent(front).value, DigitsValue(d))) else None
  {
    TrailingDigitsOf(front, d);
    var body := front + d;
    assert body[..|body| - |d|] == front;
    assert body[|body| - |d|..] == d;
  }

  lemma {:induction false} TrailingDigitsOf(front: string, d: string)
    requires front != [] && !IsDigit(front[|front| - 1])
    requires forall i :: 0 <= i < |d| ==> IsDigit(d[i])
    ensures TrailingDigits(front + d) == |d|
    decreases |d|
  {
    if d != [] {
      assert (front + d)[..|front + d| - 1] == front + d[..|d| - 1];
      TrailingDigitsOf(front, d[..|d| - 1]);
    } else {
      assert front + d == front;
    }
  }

  /** A path that does not end in `]` names no child slot. */
  lemma NoSlotWithoutBracket(path: string)
    requires path == [] || path[|path| - 1] != ']'
    ensures SplitChildSlot(path) == None
  {
  }

  /** Neither `$` nor `$.children` names a child slot. */
  lemma RootPathsNameNoSlot()
    ensures SplitChildSlot("$") == None && SplitChildSlot("$.children") == None
  {
    NoSlotWithoutBracket("$");
    NoSlotWithoutBracket("$.children");
  }
}
