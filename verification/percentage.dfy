/** The Percentage value object: a value in [0, 100]. Every operation returns
    a fresh value through `Create`, which throws outside that range. */
module PercentageValue {
  import opened Wrappers

  const OutOfRange: string := "Percentage must be between 0 and 100"

  datatype Percentage = Percentage(value: real)

  predicate Valid(p: Percentage)
  {
    0.0 <= p.value <= 100.0
  }

  function Create(value: real): (r: Result<Percentage, string>)
    ensures r.Success? <==> 0.0 <= value <= 100.0
    ensures r.Success? ==> Valid(r.value) && r.value.value == value
    ensures r.Failure? ==> r.error == OutOfRange
  {
    if value < 0.0 || value > 100.0 then Failure(OutOfRange) else Success(Percentage(value))
  }

  /** A fraction becomes a percentage: it succeeds exactly on [0, 1]. */
  function FromDecimal(decimal: real): (r: Result<Percentage, string>)
    ensures r.Success? <==> 0.0 <= decimal <= 1.0
    ensures r.Success? ==> r.value.value == decimal * 100.0
    ensures r.Failure? ==> r.error == OutOfRange
  {
    Create(decimal * 100.0)
  }

  function ToDecimal(p: Percentage): (r: real)
    requires Valid(p)
    ensures 0.0 <= r <= 1.0 && r * 100.0 == p.value
  {
    p.value / 100.0
  }

  /** The share of `amount` the percentage stands for. */
  function Of(p: Percentage, amount: real): (r: real)
    requires Valid(p)
    ensures r * 100.0 == amount * p.value
  {
    amount * ToDecimal(p)
  }

  function Add(a: Percentage, b: Percentage): (r: Result<Percentage, string>)
    requires Valid(a) && Valid(b)
    ensures r.Success? <==> a.value + b.value <= 100.0
    ensures r.Success? ==> r.value.value == a.value + b.value
    ensures r.Failure? ==> r.error == OutOfRange
  {
    Create(a.value + b.value)
  }

  function Subtract(a: Percentage, b: Percentage): (r: Result<Percentage, string>)
    requires Valid(a) && Valid(b)
    ensures r.Success? <==> a.value >= b.value
    ensures r.Success? ==> r.value.value == a.value - b.value
    ensures r.Failure? ==> r.error == OutOfRange
  {
    Create(a.value - b.value)
  }

  function Multiply(p: Percentage, multiplier: real): (r: Result<Percentage, string>)
    ensures r.Success? <==> 0.0 <= p.value * multiplier <= 100.0
    ensures r.Success? ==> r.value.value == p.value * multiplier
    ensures r.Failure? ==> r.error == OutOfRange
  {
    Create(p.value * multiplier)
  }

  function Divide(p: Percentage, divisor: real): (r: Result<Percentage, string>)
    ensures divisor == 0.0 ==> r == Failure("Cannot divide by zero")
    ensures divisor != 0.0 ==> (r.Success? <==> 0.0 <= p.value / divisor <= 100.0)
    ensures r.Success? ==> divisor != 0.0 && r.value.value * divisor == p.value
    ensures r.Failure? && divisor != 0.0 ==> r.error == OutOfRange
  {
    if divisor == 0.0 then Failure("Cannot divide by zero") else Create(p.value / divisor)
  }

  function IsGreaterThan(a: Percentage, b: Percentage): (r: bool)
    ensures r <==> a.value > b.value
  {
    a.value > b.value
  }

  function IsLessThan(a: Percentage, b: Percentage): (r: bool)
    ensures r <==> a.value < b.value
  {
    a.value < b.value
  }

  function Equals(a: Percentage, b: Percentage): (r: bool)
    ensures r <==> a == b
  {
    a.value == b.value
  }

  /** Exactly one of greater, less and equal holds. */
  lemma Trichotomy(a: Percentage, b: Percentage)
    ensures !(IsGreaterThan(a, b) && IsLessThan(a, b))
    ensures IsGreaterThan(a, b) || IsLessThan(a, b) || Equals(a, b)
  {
  }

  /** Converting to a fraction and back gives the same percentage. This
      holds for the real values of the model; on JavaScript numbers
      rounding can break it (`fromDecimal(toDecimal(7))` is 7.000000000000001). */
  lemma DecimalRoundTrip(p: Percentage)
    requires Valid(p)
    ensures FromDecimal(ToDecimal(p)) == Success(p)
  {
  }
}
