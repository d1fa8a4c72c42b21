/**
 * A decoded JSON value as Python's `json.loads` produces it, with the pieces
 * of Python semantics the backend applies to such values: truthiness,
 * `dict.get`, the `a or b or c` chains, `str(...)` and `float(...)`.
 */
module Json {
  import opened Wrappers
  import opened Text

  /**
   * `Num` keeps the number and the text Python's `str()` prints for it
   * (json.loads gives an int or a float; the decoder fills both parts).
   */
  datatype Value =
    | Null
    | Bool(b: bool)
    | Num(x: real, text: string)
    | Str(s: string)
    | Arr(items: seq<Value>)
    | Obj(fields: map<string, Value>)

  /** Python truthiness: None, False, 0, "", [] and {} are false. */
  predicate Truthy(v: Value) {
    match v
    case Null => false
    case Bool(b) => b
    case Num(x, _) => x != 0.0
    case Str(s) => s != []
    case Arr(items) => items != []
    case Obj(fields) => fields != map[]
  }

  /** `obj.get(key)` on a dict: None when the key is missing. */
  function Get(fields: map<string, Value>, key: string): (r: Value)
    ensures key !in fields ==> r == Null
  {
    if key in fields then fields[key] else Null
  }

  /** `obj.get(key, default)` */
  function GetOr(fields: map<string, Value>, key: string, default: Value): Value {
    if key in fields then fields[key] else default
  }

  /** Index of the first truthy value in `vs`, or `|vs|` when there is none. */
  function FirstTruthyIndex(vs: seq<Value>): (i: nat)
    ensures i <= |vs|
    ensures forall j :: 0 <= j < i ==> !Truthy(vs[j])
    ensures i < |vs| ==> Truthy(vs[i])
  {
    if vs == [] || Truthy(vs[0]) then 0
    else
      var i := FirstTruthyIndex(vs[1..]);
      assert forall j :: 1 <= j < i + 1 ==> vs[j] == vs[1..][j - 1];
      i + 1
  }

  /**
   * `vs[0] or vs[1] or ... or last`: the first truthy operand, or the last
   * operand when none of the others is truthy.
   */
  function FirstTruthy(vs: seq<Value>, last: Value): (r: Value)
    ensures (exists k :: 0 <= k < |vs| && Truthy(vs[k])) ==> Truthy(r) && r in vs
    ensures (forall k :: 0 <= k < |vs| ==> !Truthy(vs[k])) ==> r == last
    ensures forall k :: 0 <= k < |vs| && Truthy(vs[k]) && (forall j :: 0 <= j < k ==> !Truthy(vs[j])) ==> r == vs[k]
  {
    var i := FirstTruthyIndex(vs);
    if i < |vs| then vs[i] else last
  }

  /** `str(v)`; a list or dict prints as a fixed marker here. */
  function Show(v: Value): (r: string)
    ensures v.Str? ==> r == v.s
  {
    match v
    case Null => "None"
    case Bool(b) => if b then "True" else "False"
    case Num(_, text) => text
    case Str(s) => s
    case Arr(_) => "[...]"
    case Obj(_) => "{...}"
  }

  /** Value of a run of decimal digits. */
  function DigitsValue(d: string): (n: nat)
    requires AllDigits(d)
  {
    if d == [] then 0
    else
      var last := d[|d| - 1];
      assert IsDigit(last);
      10 * DigitsValue(d[..|d| - 1]) + (last as int - '0' as int)
  }

  function Pow10(k: nat): (p: nat)
    ensures p >= 1
  {
    if k == 0 then 1 else 10 * Pow10(k - 1)
  }

  predicate AllDigits(d: string) {
    forall i :: 0 <= i < |d| ==> IsDigit(d[i])
  }

  /** `digits`, `digits.`, `.digits` or `digits.digits`, with at least one digit. */
  function ParseUnsigned(t: string): (r: Option<real>)
    ensures r.Some? ==> r.value >= 0.0
  {
    if '.' in t then
      var dot := IndexOf(t, '.');
      var whole, frac := t[..dot], t[dot + 1..];
      if AllDigits(whole) && AllDigits(frac) && |whole| + |frac| > 0 then
        Some(DigitsValue(whole) as real + DigitsValue(frac) as real / Pow10(|frac|) as real)
      else None
    else if AllDigits(t) && t != [] then Some(DigitsValue(t) as real)
    else None
  }

  /** `float(s)` on a decimal literal with optional sign and surrounding whitespace. */
  function ParseDecimal(s: string): Option<real> {
    var t := Strip(s);
    if t != [] && t[0] == '-' then
      match ParseUnsigned(t[1..])
      case Some(x) => Some(-x)
      case None => None
    else if t != [] && t[0] == '+' then ParseUnsigned(t[1..])
    else ParseUnsigned(t)
  }

  /** `float(v)`: None where Python raises (None, a list, a dict, a non-numeric string). */
  function ToFloat(v: Value): (r: Option<real>)
    ensures v.Num? ==> r == Some(v.x)
    ensures v.Null? || v.Arr? || v.Obj? ==> r == None
  {
    match v
    case Null => None
    case Bool(b) => Some(if b then 1.0 else 0.0)
    case Num(x, _) => Some(x)
    case Str(s) => ParseDecimal(s)
    case Arr(_) => None
    case Obj(_) => None
  }
}
