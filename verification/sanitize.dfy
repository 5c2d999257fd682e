/**
 * The log sanitiser `sanitizeStringsDeep` (src/server/utils.ts:4-25): long
 * strings are masked and an object met a second time is printed as
 * `[Circular]`.
 *
 * The input may share objects, so each object carries a reference `ref`; two
 * nodes with the same `ref` are the same object. A cyclic object graph is
 * given by its unrolling down to the first repeated reference, which is as
 * far as the walk ever looks. Arrays are not remembered by the walk, so they
 * are plain values here.
 */
module Sanitize {

  import opened Json
  import Text

  datatype Node =
    | NNull
    | NBool(b: bool)
    | NNum(n: int)
    | NStr(s: string)
    | NArr(items: seq<Node>)
    | NObj(ref: nat, fields: seq<Field>)

  datatype Field = Field(key: string, value: Node)

  const DefaultMaxLen: int := 200
  const Masked: string := "..."
  const CircularMark: string := "[Circular]"

  /** A string value, masked when it is longer than `maxLen` UTF-16 code units. */
  function MaskString(s: string, maxLen: int): (r: string)
    ensures Text.Utf16Length(s) <= maxLen ==> r == s
    ensures Text.Utf16Length(s) > maxLen ==> r == Masked
  {
    if Text.Utf16Length(s) > maxLen then Masked else s
  }

  /** For text below U+10000, a string is kept exactly when it has at most `maxLen` characters or is the mask itself. */
  lemma MaskStringPlainText(s: string, maxLen: int)
    requires forall i :: 0 <= i < |s| ==> !Text.IsAstral(s[i])
    ensures MaskString(s, maxLen) == s <==> |s| <= maxLen || s == Masked
  {
  }

  /** The mask is three code units long. */
  lemma MaskedLength()
    ensures Text.Utf16Length(Masked) == |Masked| == 3
  {
    assert forall i :: 0 <= i < |Masked| ==> !Text.IsAstral(Masked[i]);
  }

  /**
   * The walk: strings are masked, arrays mapped, and an object seen before
   * anywhere in the walk (not only on the current path) becomes `[Circular]`.
   * Returns the copy and the set of objects seen so far.
   */
  function Walk(n: Node, maxLen: int, seen: set<nat>): (r: (Value, set<nat>))
    ensures seen <= r.1
    decreases n, 2
  {
    match n
    case NNull => (Null, seen)
    case NBool(b) => (Bool(b), seen)
    case NNum(x) => (Num(x), seen)
    case NStr(s) => (Str(MaskString(s, maxLen)), seen)
    case NArr(items) =>
      var (vs, seen') := WalkItems(items, maxLen, seen);
      (Arr(vs), seen')
    case NObj(ref, fields) =>
      if ref in seen then (Str(CircularMark), seen)
      else
        var (ms, seen') := WalkFields(fields, maxLen, seen + {ref});
        (Obj(ms), seen')
  }

  function WalkItems(items: seq<Node>, maxLen: int, seen: set<nat>): (r: (seq<Value>, set<nat>))
    ensures |r.0| == |items|
    ensures seen <= r.1
    decreases items, 1
  {
    if |items| == 0 then ([], seen)
    else
      var (v, seen1) := Walk(items[0], maxLen, seen);
      var (vs, seen2) := WalkItems(items[1..], maxLen, seen1);
      ([v] + vs, seen2)
  }

  function WalkFields(fields: seq<Field>, maxLen: int, seen: set<nat>): (r: (seq<Member>, set<nat>))
    ensures |r.0| == |fields|
    ensures forall i :: 0 <= i < |fields| ==> r.0[i].key == fields[i].key
    ensures seen <= r.1
    decreases fields, 1
  {
    if |fields| == 0 then ([], seen)
    else
      var (v, seen1) := Walk(fields[0].value, maxLen, seen);
      var (ms, seen2) := WalkFields(fields[1..], maxLen, seen1);
      ([Member(fields[0].key, v)] + ms, seen2)
  }

  /** `sanitizeStringsDeep(input, maxLen)`. */
  function SanitizeStringsDeep(input: Node, maxLen: int := DefaultMaxLen): Value {
    Walk(input, maxLen, {}).0
  }

  /** The objects a node reaches. */
  function Refs(n: Node): set<nat>
    decreases n, 1
  {
    match n
    case NArr(items) => ItemsRefs(items)
    case NObj(ref, fields) => {ref} + FieldsRefs(fields)
    case _ => {}
  }

  function ItemsRefs(items: seq<Node>): set<nat>
    decreases items, 0
  {
    if |items| == 0 then {} else Refs(items[0]) + ItemsRefs(items[1..])
  }

  function FieldsRefs(fields: seq<Field>): set<nat>
    decreases fields, 0
  {
    if |fields| == 0 then {} else Refs(fields[0].value) + FieldsRefs(fields[1..])
  }

  /** No object is reachable twice: the graph is a tree. */
  predicate TreeShaped(n: Node)
    decreases n, 1
  {
    match n
    case NArr(items) => ItemsTreeShaped(items)
    case NObj(ref, fields) => ref !in FieldsRefs(fields) && FieldsTreeShaped(fields)
    case _ => true
  }

  predicate ItemsTreeShaped(items: seq<Node>)
    decreases items, 0
  {
    |items| == 0 || (TreeShaped(items[0]) && ItemsTreeShaped(items[1..]) && Refs(items[0]) !! ItemsRefs(items[1..]))
  }

  predicate FieldsTreeShaped(fields: seq<Field>)
    decreases fields, 0
  {
    |fields| == 0
    || (TreeShaped(fields[0].value) && FieldsTreeShaped(fields[1..]) && Refs(fields[0].value) !! FieldsRefs(fields[1..]))
  }

  /** The plain value a node denotes, forgetting object identity. */
  function Erase(n: Node): Value
    decreases n, 1
  {
    match n
    case NNull => Null
    case NBool(b) => Bool(b)
    case NNum(x) => Num(x)
    case NStr(s) => Str(s)
    case NArr(items) => Arr(EraseItems(items))
    case NObj(_, fields) => Obj(EraseFields(fields))
  }

  function EraseItems(items: seq<Node>): (r: seq<Value>)
    ensures |r| == |items|
    decreases items, 0
  {
    if |items| == 0 then [] else [Erase(items[0])] + EraseItems(items[1..])
  }

  function EraseFields(fields: seq<Field>): (r: seq<Member>)
    ensures |r| == |fields|
    decreases fields, 0
  {
    if |fields| == 0 then [] else [Member(fields[0].key, Erase(fields[0].value))] + EraseFields(fields[1..])
  }

  /** The sanitiser's reference meaning on a plain tree: mask every long string. */
  function MaskTree(v: Value, maxLen: int): Value
    decreases v, 1
  {
    match v
    case Str(s) => Str(MaskString(s, maxLen))
    case Arr(items) => Arr(MaskItems(items, maxLen))
    case Obj(ms) => Obj(MaskMembers(ms, maxLen))
    case _ => v
  }

  function MaskItems(items: seq<Value>, maxLen: int): (r: seq<Value>)
    ensures |r| == |items|
    decreases items, 0
  {
    if |items| == 0 then [] else [MaskTree(items[0], maxLen)] + MaskItems(items[1..], maxLen)
  }

  function MaskMembers(ms: seq<Member>, maxLen: int): (r: seq<Member>)
    ensures |r| == |ms|
    decreases ms, 0
  {
    if |ms| == 0 then [] else [Member(ms[0].key, MaskTree(ms[0].value, maxLen))] + MaskMembers(ms[1..], maxLen)
  }

  /**
   * On a tree, the walk is exactly the masking of long strings, and it marks
   * every object of the tree as seen.
   */
  lemma {:induction false} WalkTree(n: Node, maxLen: int, seen: set<nat>)
    requires TreeShaped(n) && Refs(n) !! seen
    ensures Walk(n, maxLen, seen) == (MaskTree(Erase(n), maxLen), seen + Refs(n))
    decreases n, 2
  {
    match n
    case NArr(items) => WalkItemsTree(items, maxLen, seen);
    case NObj(ref, fields) =>
      WalkFieldsTree(fields, maxLen, seen + {ref});
      assert seen + {ref} + FieldsRefs(fields) == seen + Refs(n);
    case _ => assert seen + Refs(n) == seen;
  }

  lemma {:induction false} WalkItemsTree(items: seq<Node>, maxLen: int, seen: set<nat>)
    requires ItemsTreeShaped(items) && ItemsRefs(items) !! seen
    ensures WalkItems(items, maxLen, seen) == (MaskItems(EraseItems(items), maxLen), seen + ItemsRefs(items))
    decreases items, 1
  {
    if |items| > 0 {
      var seen1 := seen + Refs(items[0]);
      WalkTree(items[0], maxLen, seen);
      WalkItemsTree(items[1..], maxLen, seen1);
      var w0 := Walk(items[0], maxLen, seen);
      var ws := WalkItems(items[1..], maxLen, w0.1);
      assert WalkItems(items, maxLen, seen) == ([w0.0] + ws.0, ws.1);
      assert seen1 + ItemsRefs(items[1..]) == seen + ItemsRefs(items);
      var e := EraseItems(items);
      assert e[0] == Erase(items[0]) && e[1..] == EraseItems(items[1..]);
      assert MaskItems(e, maxLen) == [MaskTree(e[0], maxLen)] + MaskItems(e[1..], maxLen);
    } else {
      assert seen + ItemsRefs(items) == seen;
    }
  }

  lemma {:induction false} WalkFieldsTree(fields: seq<Field>, maxLen: int, seen: set<nat>)
    requires FieldsTreeShaped(fields) && FieldsRefs(fields) !! seen
    ensures WalkFields(fields, maxLen, seen) == (MaskMembers(EraseFields(fields), maxLen), seen + FieldsRefs(fields))
    decreases fields, 1
  {
    if |fields| > 0 {
      var seen1 := seen + Refs(fields[0].value);
      WalkTree(fields[0].value, maxLen, seen);
      WalkFieldsTree(fields[1..], maxLen, seen1);
      var w0 := Walk(fields[0].value, maxLen, seen);
      var ws := WalkFields(fields[1..], maxLen, w0.1);
      assert WalkFields(fields, maxLen, seen) == ([Member(fields[0].key, w0.0)] + ws.0, ws.1);
      assert seen1 + FieldsRefs(fields[1..]) == seen + FieldsRefs(fields);
      var e := EraseFields(fields);
      assert e[0] == Member(fields[0].key, Erase(fields[0].value)) && e[1..] == EraseFields(fields[1..]);
      assert MaskMembers(e, maxLen) == [Member(e[0].key, MaskTree(e[0].value, maxLen))] + MaskMembers(e[1..], maxLen);
    } else {
      assert seen + FieldsRefs(fields) == seen;
    }
  }

  /** Masking twice is masking once, as long as the mask itself is not too long. */
  lemma {:induction false} MaskTreeIdempotent(v: Value, maxLen: int)
    requires maxLen >= |Masked|
    ensures MaskTree(MaskTree(v, maxLen), maxLen) == MaskTree(v, maxLen)
    decreases v, 1
  {
    match v
    case Arr(items) => MaskItemsIdempotent(items, maxLen);
    case Obj(ms) => MaskMembersIdempotent(ms, maxLen);
    case _ => MaskedLength();
  }

  lemma {:induction false} MaskItemsIdempotent(items: seq<Value>, maxLen: int)
    requires maxLen >= |Masked|
    ensures MaskItems(MaskItems(items, maxLen), maxLen) == MaskItems(items, maxLen)
    decreases items, 0
  {
    if |items| > 0 {
      MaskTreeIdempotent(items[0], maxLen);
      MaskItemsIdempotent(items[1..], maxLen);
      assert MaskItems(items, maxLen)[1..] == MaskItems(items[1..], maxLen);
    }
  }

  lemma {:induction false} MaskMembersIdempotent(ms: seq<Member>, maxLen: int)
    requires maxLen >= |Masked|
    ensures MaskMembers(MaskMembers(ms, maxLen), maxLen) == MaskMembers(ms, maxLen)
    decreases ms, 0
  {
    if |ms| > 0 {
      MaskTreeIdempotent(ms[0].value, maxLen);
      MaskMembersIdempotent(ms[1..], maxLen);
      assert MaskMembers(ms, maxLen)[1..] == MaskMembers(ms[1..], maxLen);
    }
  }

  /** An object reached twice through an array is printed the second time as `[Circular]`. */
  lemma SharedObjectMarked()
    ensures var o := NObj(1, []);
      SanitizeStringsDeep(NArr([o, o])) == Arr([Obj([]), Str(CircularMark)])
  {
  }

  /** An object that refers to itself prints its self-reference as `[Circular]`. */
  lemma SelfReferenceMarked()
    ensures SanitizeStringsDeep(NObj(7, [Field("self", NObj(7, []))])) == Obj([Member("self", Str(CircularMark))])
  {
  }
}
