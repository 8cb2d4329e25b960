/**
 * JSON values as they arrive in a request body, and the coercions the
 * modelled JavaScript code and its document store apply to them:
 * JavaScript truthiness, JavaScript's ToNumber (used by `<`), and the
 * store's casts of a value to a Number or String schema path.
 *
 * Numbers are integers in the model's own unit (prices in cents), so
 * sums are exact.
 */
module Values {

  datatype Option<+T> = None | Some(value: T)

  datatype Result<+T, +E> = Success(value: T) | Failure(error: E) {
    predicate IsFailure() { Failure? }

    function PropagateFailure<U>(): Result<U, E>
      requires Failure?
    {
      Failure(error)
    }

    function Extract(): T
      requires Success?
    {
      value
    }
  }

  /** A field of a JSON request body; `Object` stands for any object or array. */
  datatype Value = Undefined | Null | Bool(b: bool) | Num(n: int) | Str(s: string) | Object

  /** JavaScript truthiness: undefined, null, false, 0 and "" are falsy. */
  predicate Truthy(v: Value)
  {
    match v
    case Undefined => false
    case Null => false
    case Bool(b) => b
    case Num(n) => n != 0
    case Str(s) => s != ""
    case Object => true
  }

  predicate IsDigit(c: char) { '0' <= c <= '9' }

  /** A non-empty string of decimal digits. */
  predicate IsNumeral(s: string)
  {
    |s| > 0 && forall i :: 0 <= i < |s| ==> IsDigit(s[i])
  }

  function NumeralValue(s: string): (n: nat)
    requires forall i :: 0 <= i < |s| ==> IsDigit(s[i])
  {
    if s == [] then 0
    else
      var last := s[|s| - 1];
      assert IsDigit(last);
      NumeralValue(s[..|s| - 1]) * 10 + (last as int - '0' as int)
  }

  function DigitChar(d: nat): (c: char)
    requires d < 10
    ensures IsDigit(c)
  {
    (d + '0' as int) as char
  }

  /** The decimal numeral of `n`, as `String(n)` writes it. */
  function NatToDecimal(n: nat): (s: string)
    ensures IsNumeral(s)
    decreases n
  {
    if n < 10 then [DigitChar(n)] else NatToDecimal(n / 10) + [DigitChar(n % 10)]
  }

  function IntToDecimal(n: int): string
  {
    if n < 0 then "-" + NatToDecimal(-n) else NatToDecimal(n)
  }

  /**
   * JavaScript's ToNumber, as a relational comparison applies it;
   * `None` is NaN, against which every comparison is false.
   */
  function ToNumber(v: Value): Option<int>
  {
    match v
    case Undefined => None
    case Null => Some(0)
    case Bool(b) => Some(if b then 1 else 0)
    case Num(n) => Some(n)
    case Str(s) =>
      if s == "" then Some(0)
      else if IsNumeral(s) then Some(NumeralValue(s))
      else None
    case Object => None
  }

  /** JavaScript `v < bound` for a number `bound`. */
  predicate LessThan(v: Value, bound: int)
  {
    var x := ToNumber(v); x.Some? && x.value < bound
  }

  /** What a document-store cast of one value produces. */
  datatype Cast<+T> = Missing | Cast(value: T) | CastFailed

  /** The store's cast of a value to a Number path; "" and null become missing. */
  function CastNumber(v: Value): Cast<int>
  {
    match v
    case Undefined => Missing
    case Null => Missing
    case Bool(b) => Cast(if b then 1 else 0)
    case Num(n) => Cast(n)
    case Str(s) =>
      if s == "" then Missing
      else if IsNumeral(s) then Cast(NumeralValue(s))
      else CastFailed
    case Object => CastFailed
  }

  /** The store's cast of a value to a String path. */
  function CastString(v: Value): Cast<string>
  {
    match v
    case Undefined => Missing
    case Null => Missing
    case Bool(b) => Cast(if b then "true" else "false")
    case Num(n) => Cast(IntToDecimal(n))
    case Str(s) => Cast(s)
    case Object => CastFailed
  }

  /** Reading back the numeral `String(n)` writes gives `n`. */
  lemma {:induction false} DecimalRoundTrip(n: nat)
    ensures NumeralValue(NatToDecimal(n)) == n
    decreases n
  {
    var s := NatToDecimal(n);
    if n >= 10 {
      DecimalRoundTrip(n / 10);
      assert s[..|s| - 1] == NatToDecimal(n / 10);
    }
  }

  /**
   * Where the store's Number cast succeeds on a value that is not null and
   * not "", it agrees with the number `<` compares.
   */
  lemma CastAgreesWithToNumber(v: Value)
    requires CastNumber(v).Cast?
    ensures ToNumber(v) == Some(CastNumber(v).value)
  {
  }

  /** A schema validation failure; the store refuses to save the document. */
  datatype SchemaError = Required(path: string) | CastError(path: string) | BelowMin(path: string) | TooShort(path: string)
}
