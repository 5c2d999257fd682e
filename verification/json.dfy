/**
 * JSON values as `JSON.parse` produces them, with the handful of JavaScript
 * semantics the gateway relies on: property access, truthiness, `||`,
 * `String(x)`, unary `+`, object spread and `delete`.
 *
 * Numbers are integers (fractional numbers are not modelled). JavaScript's
 * `undefined` is `None` of an `Option<Value>`. Objects keep their members in
 * enumeration order and, as `JSON.parse` builds them, hold each key once.
 */
module Json {

  import opened Wrappers
  import Text

  datatype Value =
    | Null
    | Bool(b: bool)
    | Num(n: int)
    | Str(s: string)
    | Arr(items: seq<Value>)
    | Obj(members: seq<Member>)

  datatype Member = Member(key: string, value: Value)

  /** The value of the first member named `key`, or `undefined`. */
  function Lookup(ms: seq<Member>, key: string): (r: Option<Value>)
    ensures r.Some? <==> exists i :: 0 <= i < |ms| && ms[i].key == key
    ensures r.Some? ==> exists i :: 0 <= i < |ms| && ms[i].key == key && ms[i].value == r.value
  {
    if |ms| == 0 then None
    else if ms[0].key == key then Some(ms[0].value)
    else Lookup(ms[1..], key)
  }

  /**
   * `v.key` for a value that is neither `null` nor `undefined`: an object's
   * member, and `undefined` for every other kind of value (none of the keys
   * the gateway reads exists on strings, numbers, booleans or arrays).
   */
  function Get(v: Value, key: string): Option<Value> {
    if v.Obj? then Lookup(v.members, key) else None
  }

  /** `v?.key`: `undefined` when `v` is `null` or `undefined`. */
  function GetOpt(v: Option<Value>, key: string): Option<Value> {
    if v.None? || v.value.Null? then None else Get(v.value, key)
  }

  /** JavaScript truthiness; `undefined`, `null`, `false`, `0` and `""` are falsy. */
  predicate Truthy(v: Option<Value>) {
    match v
    case None => false
    case Some(Null) => false
    case Some(Bool(b)) => b
    case Some(Num(n)) => n != 0
    case Some(Str(s)) => s != ""
    case Some(Arr(_)) => true
    case Some(Obj(_)) => true
  }

  /** `a || b`: the first operand when it is truthy, the second otherwise. */
  function Or(a: Option<Value>, b: Option<Value>): (r: Option<Value>)
    ensures Truthy(a) ==> r == a
    ensures !Truthy(a) ==> r == b
  {
    if Truthy(a) then a else b
  }

  /** True when `v === s` for the string literal `s`. */
  predicate IsString(v: Option<Value>, s: string) {
    v == Some(Str(s))
  }

  /** The `type` member of an event or message. */
  function TypeOf(v: Value): Option<Value> {
    Get(v, "type")
  }

  /** `String(v)`, which is also what a template literal `${v}` and `+=` onto a string produce. */
  function ToStr(v: Option<Value>): string {
    match v
    case None => "undefined"
    case Some(x) => ValueToStr(x)
  }

  function ValueToStr(v: Value): string
    decreases v, 1
  {
    match v
    case Null => "null"
    case Bool(b) => if b then "true" else "false"
    case Num(n) => Text.IntToString(n)
    case Str(s) => s
    case Arr(items) => ItemsToStr(items)
    case Obj(_) => "[object Object]"
  }

  /** `Array.prototype.join(',')`: `null` elements print as the empty string. */
  function ItemsToStr(items: seq<Value>): string
    decreases items, 0
  {
    if |items| == 0 then ""
    else
      var last := items[|items| - 1];
      var tail := if last.Null? then "" else ValueToStr(last);
      if |items| == 1 then tail else ItemsToStr(items[..|items| - 1]) + "," + tail
  }

  /** Result of JavaScript's ToNumber, restricted to integers. */
  datatype Number = NaN | Int(i: int)

  /**
   * ToNumber (unary `+`): `undefined` and objects give NaN, `null` 0, booleans
   * 0 or 1, strings their trimmed decimal integer reading (the empty string is
   * 0), arrays the reading of their `join(',')`.
   */
  function ToNumber(v: Option<Value>): Number {
    match v
    case None => NaN
    case Some(Null) => Int(0)
    case Some(Bool(b)) => Int(if b then 1 else 0)
    case Some(Num(n)) => Int(n)
    case Some(Str(s)) => StringToNumber(s)
    case Some(Arr(items)) => StringToNumber(ItemsToStr(items))
    case Some(Obj(_)) => NaN
  }

  function StringToNumber(s: string): Number {
    var t := Text.Trim(s);
    if t == "" then Int(0)
    else match Text.ParseInt(t)
      case Some(i) => Int(i)
      case None => NaN
  }

  /** Every number survives the trip through its own decimal text. */
  lemma NumberTextRoundTrip(n: int)
    ensures ToNumber(Some(Str(Text.IntToString(n)))) == Int(n)
  {
    var s := Text.IntToString(n);
    Text.IntToStringRoundTrip(n);
    assert Text.TrimStart(s) == s by {
      assert |s| > 0 && !Text.IsWhitespace(s[0]);
    }
    assert Text.TrimEnd(s) == s by {
      assert !Text.IsWhitespace(s[|s| - 1]);
    }
  }

  /** The members of `ms` with `key` set to `v`: replaced in place when present, appended otherwise (object spread). */
  function With(ms: seq<Member>, key: string, v: Value): (r: seq<Member>)
    ensures Lookup(r, key) == Some(v)
    ensures forall k :: k != key ==> Lookup(r, k) == Lookup(ms, k)
  {
    if |ms| == 0 then [Member(key, v)]
    else if ms[0].key == key then [Member(key, v)] + Without(ms[1..], key)
    else [ms[0]] + With(ms[1..], key, v)
  }

  /** The members of `ms` without any member named `key` (`delete`). */
  function Without(ms: seq<Member>, key: string): (r: seq<Member>)
    ensures Lookup(r, key) == None
    ensures forall k :: k != key ==> Lookup(r, k) == Lookup(ms, k)
    ensures |r| <= |ms|
  {
    if |ms| == 0 then []
    else if ms[0].key == key then Without(ms[1..], key)
    else [ms[0]] + Without(ms[1..], key)
  }
}
