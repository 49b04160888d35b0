/** The fragment of JavaScript value semantics that the bridge relies on:
    untyped values, truthiness (`||`), nullishness (`??`), default parameters,
    property reads on possibly-missing argument objects, string coercion in
    template literals and `encodeURIComponent`, and thrown exceptions. */
module Js {
  import opened Results

  /** A JavaScript value as it reaches the bridge from the JSON-RPC transport or
      from a parsed HTTP response. Numbers are integers only. */
  datatype JsValue =
    | Undefined
    | Null
    | Bool(b: bool)
    | Num(n: int)
    | Str(s: string)
    | Arr(items: seq<JsValue>)
    | Obj(fields: map<string, JsValue>)

  /** What a `throw` carries: an `Error` instance (including `TypeError`,
      `URIError` and the HTTP library's errors), which has a message, or any
      other thrown value. */
  datatype Exception =
    | ErrorObject(message: string)
    | ThrownValue(value: JsValue)

  /** JavaScript's ToBoolean: the falsy values are undefined, null, false, 0 and "". */
  predicate Truthy(v: JsValue) {
    match v
    case Undefined => false
    case Null => false
    case Bool(b) => b
    case Num(n) => n != 0
    case Str(s) => s != ""
    case Arr(_) => true
    case Obj(_) => true
  }

  predicate Nullish(v: JsValue) {
    v.Undefined? || v.Null?
  }

  /** `a || b` */
  function Or(a: JsValue, b: JsValue): JsValue {
    if Truthy(a) then a else b
  }

  /** `a ?? b` */
  function Coalesce(a: JsValue, b: JsValue): JsValue {
    if Nullish(a) then b else a
  }

  /** A parameter declared `p = d`: the default replaces `undefined` only. */
  function DefaultParam(a: JsValue, d: JsValue): JsValue {
    if a.Undefined? then d else a
  }

  /** `||` replaces every falsy value, `??` only the nullish ones, and a
      default parameter only `undefined`: on a truthy value all three keep it,
      and on `false`, `0` or `""` only `||` substitutes. */
  lemma DefaultingOperators(a: JsValue, d: JsValue)
    ensures Truthy(a) ==> Or(a, d) == a && Coalesce(a, d) == a && DefaultParam(a, d) == a
    ensures !Truthy(a) ==> Or(a, d) == d
    ensures !Truthy(a) && !Nullish(a) ==> Coalesce(a, d) == a && DefaultParam(a, d) == a
    ensures a.Undefined? ==> Or(a, d) == d && Coalesce(a, d) == d && DefaultParam(a, d) == d
    ensures a.Null? ==> Coalesce(a, d) == d && DefaultParam(a, d) == Null
  {
  }

  /** The V8 message of the TypeError raised by `receiver.key` on a nullish receiver. */
  function ReadError(receiver: JsValue, key: string): string
    requires Nullish(receiver)
  {
    "Cannot read properties of " + (if receiver.Undefined? then "undefined" else "null")
    + " (reading '" + key + "')"
  }

  /** `receiver.key`: throws on undefined and null, yields an own field of an
      object, and yields undefined for a missing field or a primitive receiver
      (none of the keys the bridge reads exists on a primitive's prototype). */
  function Read(receiver: JsValue, key: string): (r: Result<JsValue, Exception>)
    ensures r.Failure? <==> Nullish(receiver)
    ensures r.Failure? ==> r.error.ErrorObject? && "Cannot read properties of " <= r.error.message
    ensures receiver.Obj? && key in receiver.fields ==> r == Success(receiver.fields[key])
    ensures receiver.Obj? && key !in receiver.fields ==> r == Success(Undefined)
  {
    match receiver
    case Undefined => Failure(ErrorObject(ReadError(receiver, key)))
    case Null => Failure(ErrorObject(ReadError(receiver, key)))
    case Obj(fields) => Success(if key in fields then fields[key] else Undefined)
    case _ => Success(Undefined)
  }

  /** `receiver.key` for a receiver known not to be nullish. */
  function Get(receiver: JsValue, key: string): JsValue {
    if receiver.Obj? && key in receiver.fields then receiver.fields[key] else Undefined
  }

  lemma ReadAgreesWithGet(receiver: JsValue, key: string)
    requires !Nullish(receiver)
    ensures Read(receiver, key) == Success(Get(receiver, key))
  {
  }

  function DigitChar(d: int): char
    requires 0 <= d < 10
  {
    ('0' as int + d) as char
  }

  /** The decimal digits of a natural number, most significant first. */
  function NatString(n: nat): (s: string)
    ensures |s| > 0
    ensures forall i :: 0 <= i < |s| ==> '0' <= s[i] <= '9'
  {
    if n < 10 then [DigitChar(n)] else NatString(n / 10) + [DigitChar(n % 10)]
  }

  /** Number::toString for an integral number. */
  function IntString(n: int): string {
    if n < 0 then "-" + NatString(-n) else NatString(n)
  }

  /** ToString, as applied by template literals and by `encodeURIComponent`
      to its argument. */
  function ToString(v: JsValue): string {
    match v
    case Undefined => "undefined"
    case Null => "null"
    case Bool(b) => if b then "true" else "false"
    case Num(n) => IntString(n)
    case Str(s) => s
    case Arr(items) => JoinItems(items)
    case Obj(_) => "[object Object]"
  }

  /** Array.prototype.join(",") as used by an array's toString: nullish
      elements become the empty string. */
  function JoinItems(items: seq<JsValue>): string
    decreases items
  {
    if |items| == 0 then ""
    else
      var first := if Nullish(items[0]) then "" else ToString(items[0]);
      if |items| == 1 then first else first + "," + JoinItems(items[1..])
  }

  /** The message of the TypeError that ToPrimitive raises when neither the
      `toString` nor the `valueOf` an object carries returns a primitive. */
  const ConversionError: Exception := ErrorObject("Cannot convert object to primitive value")

  /** Whether ToString succeeds on a value parsed from JSON. An object with an
      own `toString` key shadows `Object.prototype.toString` with a value that
      is not a function, and the inherited `valueOf` returns the object
      itself, so the conversion throws. An array converts each of its
      non-nullish elements. */
  predicate Coercible(v: JsValue) {
    match v
    case Obj(fields) => "toString" !in fields
    case Arr(items) => forall i :: 0 <= i < |items| ==> Nullish(items[i]) || Coercible(items[i])
    case _ => true
  }

  /** ToString as JavaScript performs it: the elements of an array are
      converted left to right, and the first one that cannot be converted
      throws. */
  function Convert(v: JsValue): (r: Result<string, Exception>)
    ensures r.Success? <==> Coercible(v)
    ensures r.Success? ==> r.value == ToString(v)
    ensures r.Failure? ==> r.error == ConversionError
  {
    match v
    case Obj(fields) => if "toString" in fields then Failure(ConversionError) else Success("[object Object]")
    case Arr(items) => ConvertItems(items)
    case _ => Success(ToString(v))
  }

  /** Array.prototype.join(",") with the element conversions that can throw. */
  function ConvertItems(items: seq<JsValue>): (r: Result<string, Exception>)
    ensures r.Success? <==> forall i :: 0 <= i < |items| ==> Nullish(items[i]) || Coercible(items[i])
    ensures r.Success? ==> r.value == JoinItems(items)
    ensures r.Failure? ==> r.error == ConversionError
    decreases items
  {
    if |items| == 0 then Success("")
    else
      var first :- if Nullish(items[0]) then Success("") else Convert(items[0]);
      if |items| == 1 then Success(first)
      else
        var rest :- ConvertItems(items[1..]);
        Success(first + "," + rest)
  }

  /** An argument object that defines its own `toString`, as a JSON object
      may, cannot be converted, and neither can an array holding one. */
  lemma OwnToStringThrows(fields: map<string, JsValue>, before: seq<JsValue>)
    requires "toString" in fields
    ensures Convert(Obj(fields)) == Failure(ConversionError)
    ensures Convert(Arr(before + [Obj(fields)])) == Failure(ConversionError)
  {
    var items := before + [Obj(fields)];
    assert items[|before|] == Obj(fields);
  }

  /** A number converted to a string is a run of digits, possibly signed; in
      particular it never contains a path separator. */
  lemma NumberStringHasNoSlash(n: int)
    ensures '/' !in ToString(Num(n))
    ensures ToString(Num(n)) != ""
  {
    var s := NatString(if n < 0 then -n else n);
    assert forall i :: 0 <= i < |s| ==> s[i] != '/';
  }
}
