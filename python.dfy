/**
  The slice of Python that the request handler relies on: the value a JSON
  body decodes to, truthiness, the built-in coercions `float`, `int` and `str`,
  ASCII `str.lower`, and the exceptions the handler can meet.
 */
module Python {
  import opened Wrappers

  /** A decoded JSON document, as Python objects. */
  datatype Value =
    | Null
    | Boolean(b: bool)
    | Integer(i: int)
    | Float(r: real)
    | Text(s: string)
    | List(items: seq<Value>)
    | Dict(fields: map<string, Value>)

  /** Python's `bool(v)`: `None`, `False`, zero and empty containers are falsy. */
  predicate Truthy(v: Value) {
    match v
    case Null => false
    case Boolean(b) => b
    case Integer(i) => i != 0
    case Float(r) => r != 0.0
    case Text(s) => s != []
    case List(items) => items != []
    case Dict(fields) => fields != map[]
  }

  /** `type(v).__name__` */
  function TypeName(v: Value): string {
    match v
    case Null => "NoneType"
    case Boolean(_) => "bool"
    case Integer(_) => "int"
    case Float(_) => "float"
    case Text(_) => "str"
    case List(_) => "list"
    case Dict(_) => "dict"
  }

  /** `d.get(key)`: a missing key gives `None`. */
  function Get(fields: map<string, Value>, key: string): (v: Value)
    ensures key !in fields ==> v == Null
    ensures key in fields ==> v == fields[key]
  {
    if key in fields then fields[key] else Null
  }

  /** The exceptions the handler can raise or be handed. */
  datatype Exception =
    | IndexError(index: int, size: nat)             // numpy write past the end of an array
    | AttributeError(typeName: string, name: string) // attribute lookup on the wrong type
    | Raised(message: string)                        // anything raised by the scaler or the model

  /**
    The parts of Python's coercions that depend on text formats the model does
    not spell out: parsing a string with `float(s)` or `int(s)` (None when
    Python raises ValueError) and `str(v)` of a value that is neither None nor
    a string.
   */
  datatype Builtins = Builtins(
    parseFloat: string -> Option<real>,
    parseInt: string -> Option<int>,
    repr: Value -> string)

  /** Truncation toward zero, the conversion `int(x)` applies to a float. */
  function TruncateTowardZero(x: real): (t: int)
    ensures 0.0 <= x ==> 0 <= t && t as real <= x < t as real + 1.0
    ensures x < 0.0 ==> t <= 0 && t as real - 1.0 < x <= t as real
  {
    if 0.0 <= x then x.Floor else -((-x).Floor)
  }

  /**
    `float(v)`; None stands for the TypeError (None, list, dict) or the
    ValueError (unparsable string) that Python raises.
   */
  function ToFloat(py: Builtins, v: Value): (r: Option<real>)
    ensures r.None? <==> v.Null? || v.List? || v.Dict? || (v.Text? && py.parseFloat(v.s).None?)
    ensures v.Boolean? ==> r == Some(if v.b then 1.0 else 0.0)
    ensures v.Integer? ==> r == Some(v.i as real)
    ensures v.Float? ==> r == Some(v.r)
  {
    match v
    case Null => None
    case Boolean(b) => Some(if b then 1.0 else 0.0)
    case Integer(i) => Some(i as real)
    case Float(r) => Some(r)
    case Text(s) => py.parseFloat(s)
    case List(_) => None
    case Dict(_) => None
  }

  /**
    `int(v)`; None stands for the TypeError or ValueError that Python raises.
    A float is truncated toward zero.
   */
  function ToInt(py: Builtins, v: Value): (r: Option<int>)
    ensures r.None? <==> v.Null? || v.List? || v.Dict? || (v.Text? && py.parseInt(v.s).None?)
    ensures v.Boolean? ==> r == Some(if v.b then 1 else 0)
    ensures v.Integer? ==> r == Some(v.i)
    ensures v.Float? ==> r == Some(TruncateTowardZero(v.r))
  {
    match v
    case Null => None
    case Boolean(b) => Some(if b then 1 else 0)
    case Integer(i) => Some(i)
    case Float(r) => Some(TruncateTowardZero(r))
    case Text(s) => py.parseInt(s)
    case List(_) => None
    case Dict(_) => None
  }

  /** `str(v)`, which never fails on a decoded JSON value. */
  function ToStr(py: Builtins, v: Value): (s: string)
    ensures v.Null? ==> s == "None"
    ensures v.Text? ==> s == v.s
  {
    match v
    case Null => "None"
    case Text(s) => s
    case _ => py.repr(v)
  }

  // ---------------------------------------------------------------------
  // str.lower, restricted to ASCII letters

  predicate IsUpper(c: char) {
    'A' <= c <= 'Z'
  }

  function LowerChar(c: char): (d: char)
    ensures !IsUpper(d)
    ensures IsUpper(c) ==> d as int == c as int + 32
    ensures !IsUpper(c) ==> d == c
  {
    if IsUpper(c) then (c as int + 32) as char else c
  }

  /** `s.lower()`: every ASCII capital replaced by its small letter. */
  function Lower(s: string): (r: string)
    ensures |r| == |s|
    ensures forall i :: 0 <= i < |s| ==> r[i] == LowerChar(s[i])
  {
    if s == [] then [] else [LowerChar(s[0])] + Lower(s[1..])
  }

  /** Two characters that are equal or are the two cases of one letter. */
  predicate CaseVariant(c: char, d: char) {
    c == d || (IsUpper(c) && d == LowerChar(c)) || (IsUpper(d) && c == LowerChar(d))
  }

  /** Two strings that differ at most in the case of their letters. */
  predicate SameIgnoringCase(a: string, b: string) {
    |a| == |b| && forall i :: 0 <= i < |a| ==> CaseVariant(a[i], b[i])
  }

  /** Lowering identifies exactly the strings that differ only in case. */
  lemma LowerAgrees(a: string, b: string)
    ensures Lower(a) == Lower(b) <==> SameIgnoringCase(a, b)
  {
  }

  /** A string holding a capital letter is never the lowered form of anything. */
  lemma UpperNeverLowered(s: string, t: string)
    requires exists i :: 0 <= i < |t| && IsUpper(t[i])
    ensures Lower(s) != t
  {
  }
}
