/** JavaScript values as the record stores and pages see them. */
module Json {
  import opened Text

  /** A JavaScript value. Numbers are modelled as reals (IEEE rounding is
      not modelled); `NaN`, `Infinity` and `undefined` have no constructor. */
  datatype Value =
    | Null
    | Bool(b: bool)
    | Num(n: real)
    | Str(s: string)
    | Arr(items: seq<Value>)
    | Obj(fields: map<string, Value>)

  /** A plain object, such as one store record. Object spread `{ ...a, ...b }`
      is the right-biased union `a + b`. */
  type Record = map<string, Value>

  datatype Option<+T> = None | Some(value: T)

  /** The outcome of a store call: a value, or the message of the thrown Error. */
  datatype Result<+T> = Ok(value: T) | Err(message: string)

  /** JavaScript truthiness. */
  predicate Truthy(v: Value) {
    match v
    case Null => false
    case Bool(b) => b
    case Num(n) => n != 0.0
    case Str(s) => s != ""
    case Arr(_) => true
    case Obj(_) => true
  }

  /** `r.k`: an absent key reads as `Null` (undefined and null are not told apart). */
  function Field(r: Record, k: string): Value {
    if k in r then r[k] else Null
  }

  /** The text of a value, or "" when it is not a string. */
  function TextOf(v: Value): string {
    if v.Str? then v.s else ""
  }

  /** `r.k === v` for a primitive `v`. */
  predicate FieldIs(r: Record, k: string, v: Value) {
    k in r && r[k] == v
  }

  /** `{ ...base, ...patch }`. */
  function Spread(base: Record, patch: Record): (r: Record)
    ensures r.Keys == base.Keys + patch.Keys
    ensures forall k :: k in patch ==> r[k] == patch[k]
    ensures forall k :: k in base && k !in patch ==> r[k] == base[k]
  {
    base + patch
  }

  /** `Number(v)`, the coercion an arithmetic operator applies: `null` is 0,
      booleans are 0 and 1, and a string is trimmed, with the empty text
      reading as 0 and a run of decimal digits as its value; anything else
      is `NaN`, here `None`. */
  function ToNumber(v: Value): Option<real> {
    match v
    case Null => Some(0.0)
    case Bool(b) => Some(if b then 1.0 else 0.0)
    case Num(n) => Some(n)
    case Str(s) => NumberOfText(s)
    case _ => None
  }

  /** `Number(s)` for a string: trimmed, empty is 0, decimal digits are their value. */
  function NumberOfText(s: string): Option<real> {
    var t := Trim(s);
    if t == [] then Some(0.0)
    else if AllDigits(t) then Some(DecimalValue(t) as real)
    else None
  }

  /** A number written out in decimal, with any whitespace around it, coerces
      back to that number. */
  lemma NumberOfDecimalText(n: nat, before: string, after: string)
    requires IsBlank(before) && IsBlank(after)
    ensures ToNumber(Str(before + DecimalText(n) + after)) == Some(n as real)
  {
    var t := DecimalText(n);
    assert IsDigit(t[0]) && IsDigit(t[|t| - 1]);
    TrimPadded(before, t, after);
    DecimalRoundTrip(n);
  }

  /** An empty or whitespace-only string coerces to 0. */
  lemma BlankTextIsZero(s: string)
    requires IsBlank(s)
    ensures ToNumber(Str(s)) == Some(0.0)
  {
    BlankTrimsToEmpty(s);
  }
}
