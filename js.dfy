/** JavaScript values as they cross the background page's message ports, and
    the few pieces of JavaScript semantics the page relies on: truthiness,
    property access, and the string a value becomes when it is used as an
    object key or inside a template literal. */
module Js {

  datatype Option<+T> = None | Some(value: T)

  datatype Result<+T, +E> = Ok(value: T) | Err(error: E)

  /** A JSON-like JavaScript value.  Numbers are modelled as integers. */
  datatype Value =
    | Undefined
    | Null
    | Bool(b: bool)
    | Num(n: int)
    | Str(s: string)
    | Arr(items: seq<Value>)
    | Obj(fields: map<string, Value>)

  /** A plain JavaScript object: its own properties by name. */
  type JsObject = map<string, Value>

  /** What the background page throws. */
  datatype Error =
    | InvalidUuidFormat(input: Value)              // `Invalid UUID format: ${origUuid}`
    | FiltersMissing                               // 'Filters must be provided'
    | InvalidValueArgument                         // 'Invalid argument: value'
    | CharacteristicNotFound(characteristic: Value) // `Characteristic ${characteristic} not found`
    | TypeError                                    // a property or method used on a value that lacks it
    | NativeError(reason: Value)                   // the `error` of a native reply, passed through

  /** JavaScript's ToBoolean. */
  predicate Truthy(v: Value)
  {
    match v
    case Undefined => false
    case Null => false
    case Bool(b) => b
    case Num(n) => n != 0
    case Str(s) => s != ""
    case Arr(_) => true
    case Obj(_) => true
  }

  /** `o[key]`: a missing property reads as `undefined`. */
  function Get(o: JsObject, key: string): Value
  {
    if key in o then o[key] else Undefined
  }

  /** `v.key` on an arbitrary value: `undefined` and `null` have no properties
      (a TypeError); other primitives and arrays have no own `key` here. */
  function PropertyOf(v: Value, key: string): (r: Result<Value, Error>)
    ensures r.Err? <==> v.Undefined? || v.Null?
    ensures v.Obj? ==> r == Ok(Get(v.fields, key))
  {
    match v
    case Undefined => Err(TypeError)
    case Null => Err(TypeError)
    case Obj(fields) => Ok(Get(fields, key))
    case _ => Ok(Undefined)
  }

  predicate IsDigit(c: char)
  {
    '0' <= c <= '9'
  }

  function DigitChar(d: nat): char
    requires d < 10
  {
    ('0' as int + d) as char
  }

  /** The decimal numeral of a natural number, as `String(n)` prints it. */
  function Decimal(n: nat): (s: string)
    ensures |s| > 0
  {
    if n < 10 then [DigitChar(n)] else Decimal(n / 10) + [DigitChar(n % 10)]
  }

  /** Joins strings with commas, as `Array.prototype.join` does by default. */
  function JoinWithCommas(parts: seq<string>): string
  {
    if |parts| == 0 then ""
    else if |parts| == 1 then parts[0]
    else JoinWithCommas(parts[..|parts| - 1]) + "," + parts[|parts| - 1]
  }

  /** JavaScript's ToString, which turns a value into a property key or into
      the text a template literal substitutes. */
  function Display(v: Value): string
  {
    match v
    case Undefined => "undefined"
    case Null => "null"
    case Bool(b) => if b then "true" else "false"
    case Num(n) => if n < 0 then "-" + Decimal(-n) else Decimal(n)
    case Str(s) => s
    case Arr(items) =>
      JoinWithCommas(seq(|items|, i requires 0 <= i < |items| =>
        if items[i].Undefined? || items[i].Null? then "" else Display(items[i])))
    case Obj(_) => "[object Object]"
  }

  predicate AllDigits(s: string)
  {
    forall i | 0 <= i < |s| :: IsDigit(s[i])
  }

  function DecimalValue(s: string): nat
    requires AllDigits(s)
  {
    if s == [] then 0 else DecimalValue(s[..|s| - 1]) * 10 + (s[|s| - 1] as int - '0' as int)
  }

  /** The array index a property key names: a decimal numeral without sign
      and without leading zeros.  `requests[msg._id]` finds the entry stored
      under id `n` exactly when the key of `msg._id` names index `n`. */
  function ArrayIndexOf(key: string): Option<nat>
  {
    if key != [] && AllDigits(key) && (key[0] != '0' || |key| == 1) then Some(DecimalValue(key)) else None
  }

  lemma {:induction false} DecimalDigits(n: nat)
    ensures AllDigits(Decimal(n)) && DecimalValue(Decimal(n)) == n
    ensures n > 0 ==> Decimal(n)[0] != '0'
    decreases n
  {
    if n >= 10 {
      DecimalDigits(n / 10);
      var s := Decimal(n);
      assert s[..|s| - 1] == Decimal(n / 10);
    }
  }

  lemma {:induction false} ZeroValueMeansZeros(s: string)
    requires AllDigits(s) && DecimalValue(s) == 0
    ensures forall i | 0 <= i < |s| :: s[i] == '0'
    decreases |s|
  {
    if s != [] {
      ZeroValueMeansZeros(s[..|s| - 1]);
      forall i | 0 <= i < |s| ensures s[i] == '0' {
        if i < |s| - 1 { assert s[i] == s[..|s| - 1][i]; }
      }
    }
  }

  /** A property key names array index `n` exactly when it is `n`'s decimal
      numeral: so the ids the page stores and the ids a reply carries meet
      in one key space. */
  lemma {:induction false} KeyNamesIndex(key: string, n: nat)
    ensures ArrayIndexOf(key) == Some(n) <==> key == Decimal(n)
    decreases |key|
  {
    DecimalDigits(n);
    if ArrayIndexOf(key) == Some(n) {
      var pre := key[..|key| - 1];
      var d := key[|key| - 1] as int - '0' as int;
      if |key| > 1 {
        assert pre[0] == key[0];
        if DecimalValue(pre) == 0 {
          ZeroValueMeansZeros(pre);
        }
        KeyNamesIndex(pre, DecimalValue(pre));
        assert key == pre + [DigitChar(d)];
      }
    }
  }
}
