/** The transfer fee rule: 0.5% of the amount with a 500 AOA floor, and (in the
    backend copies) a 5000 AOA ceiling. Amounts are exact reals, not IEEE doubles. */
module FeeRule {

  const Rate: real := 0.005
  const MinFee: real := 500.0
  const MaxFee: real := 5000.0

  function Max(a: real, b: real): real {
    if a >= b then a else b
  }

  function Min(a: real, b: real): real {
    if a <= b then a else b
  }

  /** The backend rule `min(max(amount * 0.005, 500), 5000)`, shared verbatim by the
      worker, the server's demo path and the Node.js automation service. */
  function Fee(amount: real): (fee: real)
    ensures MinFee <= fee <= MaxFee
    ensures fee == amount * Rate <==> 100000.0 <= amount <= 1000000.0
    ensures amount <= 100000.0 ==> fee == MinFee
    ensures amount >= 1000000.0 ==> fee == MaxFee
  {
    Min(Max(amount * Rate, MinFee), MaxFee)
  }

  /** The browser-side rule `max(amount * 0.005, 500)`: the same floor, no ceiling. */
  function FrontendFee(amount: real): (fee: real)
    ensures fee >= MinFee
    ensures fee == amount * Rate <==> amount >= 100000.0
    ensures amount <= 100000.0 ==> fee == MinFee
  {
    Max(amount * Rate, MinFee)
  }

  lemma FeeMonotone(a: real, b: real)
    requires a <= b
    ensures Fee(a) <= Fee(b)
  {
  }

  lemma FrontendFeeMonotone(a: real, b: real)
    requires a <= b
    ensures FrontendFee(a) <= FrontendFee(b)
  {
  }

  /** The two rules agree exactly up to the cap's break-even amount, and the
      browser-side rule charges more beyond it. */
  lemma FrontendAgreesIffBelowCap(amount: real)
    ensures FrontendFee(amount) == Fee(amount) <==> amount <= 1000000.0
    ensures amount > 1000000.0 ==> FrontendFee(amount) > MaxFee
    ensures FrontendFee(amount) >= Fee(amount)
  {
  }

  lemma FeeExamples()
    ensures Fee(1.0) == 500.0 && Fee(200000.0) == 1000.0 && Fee(2000000.0) == 5000.0
    ensures FrontendFee(2000000.0) == 10000.0
  {
  }
}

/** How each runtime turns a JSON `amount` into a number before applying the fee rule. */
module Amounts {
  import opened Base
  import opened Json
  import opened Strings
  import opened FeeRule

  /** Python's name for the type of a parsed JSON value, as it appears in exception
      messages. A number without a fraction part is an `int`. */
  function PyTypeName(v: Value): string {
    match v
    case Null => "NoneType"
    case Bool(_) => "bool"
    case Num(n) => if n == n.Floor as real then "int" else "float"
    case Str(_) => "str"
    case Obj(_) => "dict"
  }

  /** `amount * 0.005` in Python: numbers and booleans multiply, anything else raises
      a TypeError with the message shown. */
  function PyNumber(v: Value): (r: Step<real>)
    ensures r.Ok? <==> v.Num? || v.Bool?
    ensures v.Num? ==> r == Ok(v.n)
  {
    match v
    case Num(n) => Ok(n)
    case Bool(b) => Ok(if b then 1.0 else 0.0)
    case Str(_) => Throws("can't multiply sequence by non-int of type 'float'")
    case _ => Throws("unsupported operand type(s) for *: '" + PyTypeName(v) + "' and 'float'")
  }

  /** `calculate_fee(amount)` of the worker, applied to a parsed JSON value. */
  function PyFee(v: Value): (r: Step<real>)
    ensures r.Ok? <==> PyNumber(v).Ok?
    ensures r.Ok? ==> r.value == Fee(PyNumber(v).value)
  {
    match PyNumber(v)
    case Ok(x) => Ok(Fee(x))
    case Throws(m) => Throws(m)
  }

  /** JavaScript `ToNumber` on a parsed JSON value; None is NaN. Strings are read when
      they are blank or plain decimal digits after trimming. */
  function JsNumber(v: Value): (r: Option<real>)
    ensures v.Num? ==> r == Some(v.n)
    ensures v.Obj? ==> r.None?
  {
    match v
    case Null => Some(0.0)
    case Bool(b) => Some(if b then 1.0 else 0.0)
    case Num(n) => Some(n)
    case Str(s) =>
      var t := Trim(s);
      if t == [] then Some(0.0)
      else if AllDigits(t) then Some(DigitsValue(t) as real)
      else None
    case Obj(_) => None
  }

  /** `calculateFee(amount)` of the Node.js server and automation service, as serialised
      by `JSON.stringify`: a NaN fee becomes `null`. */
  function JsFee(v: Value): (r: Value)
    ensures r.Null? <==> JsNumber(v).None?
    ensures r.Num? ==> MinFee <= r.n <= MaxFee
    ensures JsNumber(v).Some? ==> r == Num(Fee(JsNumber(v).value))
  {
    match JsNumber(v)
    case Some(x) => Num(Fee(x))
    case None => Null
  }

  /** On a JSON number the worker and the server charge the same fee. */
  lemma FeesAgreeOnNumbers(n: real)
    ensures PyFee(Num(n)) == Ok(Fee(n)) && JsFee(Num(n)) == Num(Fee(n))
  {
  }

  /** On an amount sent as a digit string the server coerces and charges the fee, while
      the worker raises. */
  lemma StringAmountsDiverge(n: nat)
    ensures JsFee(Str(NatToString(n))) == Num(Fee(n as real))
    ensures PyFee(Str(NatToString(n))).Throws?
  {
    JsReadsRenderedNat(n);
  }

  /** JavaScript reads a rendered natural number back as that number. */
  lemma JsReadsRenderedNat(n: nat)
    ensures JsNumber(Str(NatToString(n))) == Some(n as real)
  {
    var s := NatToString(n);
    TrimKeepsDigits(s);
    NatToStringValue(n);
  }
}
