/** The JavaScript values a parsed JSON document is made of, with the few language rules the
    validator depends on: truthiness, property reads (which throw on null and undefined),
    and conversion to a string. */
module JsValues {
  import opened Strings

  datatype Option<+T> = None | Some(value: T)

  /** An exception raised by the engine. */
  datatype JsError = TypeError(message: string) | SyntaxError(message: string)

  /** The completion of an evaluation: a normal value, or an abrupt completion by a thrown exception. */
  datatype Completion<+T> = Normal(value: T) | Abrupt(error: JsError)

  /** A JavaScript value. Numbers are integers here; `Undefined` is what a missing property reads as. */
  datatype Value =
    | Undefined
    | Null
    | Bool(b: bool)
    | Num(n: int)
    | Str(s: string)
    | Arr(items: seq<Value>)
    | Obj(props: map<string, Value>)

  predicate IsNullish(v: Value) {
    v.Undefined? || v.Null?
  }

  /** `!!v`: undefined, null, false, 0 and "" are falsy; every other value, every array and object included, is truthy. */
  predicate Truthy(v: Value) {
    match v
    case Undefined => false
    case Null => false
    case Bool(b) => b
    case Num(n) => n != 0
    case Str(s) => s != ""
    case Arr(_) => true
    case Obj(_) => true
  }

  /** `v[key]` on a value that is neither null nor undefined: an own property of an object, and
      undefined otherwise (no prototype of a JSON value defines a property the validator reads). */
  function Prop(v: Value, key: string): Value
    requires !IsNullish(v)
  {
    match v
    case Obj(props) => if key in props then props[key] else Undefined
    case _ => Undefined
  }

  /** The message of the TypeError that reading `key` of null or undefined raises (V8's wording). */
  function ReadFailure(v: Value, key: string): string {
    "Cannot read properties of " + (if v.Null? then "null" else "undefined") + " (reading '" + key + "')"
  }

  /** `v[key]` as an evaluation: it throws a TypeError on null and undefined. */
  function Get(v: Value, key: string): Completion<Value> {
    if IsNullish(v) then Abrupt(TypeError(ReadFailure(v, key))) else Normal(Prop(v, key))
  }

  /** The message of the TypeError that converting an object without a usable `toString` or
      `valueOf` raises (V8's wording). */
  const NoPrimitiveMessage: string := "Cannot convert object to primitive value"

  /** The conversions of a sequence of values, in order: the first one that throws decides. */
  function Collect(parts: seq<Completion<string>>): (r: Completion<seq<string>>)
    ensures r.Normal? ==> |r.value| == |parts|
    ensures r.Normal? <==> forall i :: 0 <= i < |parts| ==> parts[i].Normal?
    ensures r.Normal? ==> forall i :: 0 <= i < |parts| ==> r.value[i] == parts[i].value
    ensures r.Abrupt? ==> exists i :: 0 <= i < |parts| && parts[i] == Abrupt(r.error)
  {
    if |parts| == 0 then Normal([])
    else
      match Collect(parts[..|parts| - 1])
      case Abrupt(e) => Abrupt(e)
      case Normal(init) =>
        match parts[|parts| - 1]
        case Abrupt(e) => Abrupt(e)
        case Normal(last) => Normal(init + [last])
  }

  /** `String(v)`, as a template literal or the URL constructor converts a value. A JSON object
      converts through `Object.prototype.toString` unless it has an own `toString` key: JSON can
      only give that key a value that is not callable, so the conversion falls back on `valueOf`,
      which returns the object itself, and throws. */
  function ToJsString(v: Value): (r: Completion<string>)
    ensures r.Abrupt? ==> r.error == TypeError(NoPrimitiveMessage)
    decreases v
  {
    match v
    case Undefined => Normal("undefined")
    case Null => Normal("null")
    case Bool(b) => Normal(if b then "true" else "false")
    case Num(n) => Normal(IntToString(n))
    case Str(s) => Normal(s)
    case Arr(items) =>
      // an array converts as items.join(","), where null and undefined items become ""
      var parts := Collect(seq(|items|, i requires 0 <= i < |items| =>
                                 if IsNullish(items[i]) then Normal("") else ToJsString(items[i])));
      if parts.Abrupt? then Abrupt(parts.error) else Normal(Join(parts.value, ","))
    case Obj(props) =>
      if "toString" in props then Abrupt(TypeError(NoPrimitiveMessage)) else Normal("[object Object]")
  }

  /** The values whose string conversion throws: an object with an own `toString` key, or an
      array holding one, at any depth. */
  ghost predicate Unprintable(v: Value)
    decreases v
  {
    match v
    case Arr(items) => exists i :: 0 <= i < |items| && Unprintable(items[i])
    case Obj(props) => "toString" in props
    case _ => false
  }

  /** Converting a value throws exactly on the unprintable ones. */
  lemma {:induction false} ToJsStringThrows(v: Value)
    ensures ToJsString(v).Abrupt? <==> Unprintable(v)
    decreases v
  {
    match v
    case Arr(items) =>
      var parts := seq(|items|, i requires 0 <= i < |items| =>
                         if IsNullish(items[i]) then Normal("") else ToJsString(items[i]));
      forall i | 0 <= i < |items|
        ensures parts[i].Abrupt? <==> Unprintable(items[i])
      {
        ToJsStringThrows(items[i]);
      }
    case _ =>
  }
}
