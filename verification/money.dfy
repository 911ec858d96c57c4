/** The Money value object: a non-negative amount in a currency. Every
    operation returns a fresh value through `Create`, which throws on a
    negative amount; `Failure(message)` is that throw. */
module MoneyValue {
  import opened Wrappers

  const DefaultCurrency: string := "USD"
  const NegativeAmount: string := "Money amount cannot be negative"

  datatype Money = Money(amount: real, currency: string)

  /** What the private constructor and `create` guarantee of every Money. */
  predicate Valid(m: Money)
  {
    m.amount >= 0.0
  }

  /** `create(amount, currency = 'USD')`: absent currency means USD. */
  function Create(amount: real, currency: Option<string>): (r: Result<Money, string>)
    ensures r.Success? <==> amount >= 0.0
    ensures r.Success? ==> Valid(r.value) && r.value.amount == amount
    ensures r.Success? ==> r.value.currency == currency.GetOr(DefaultCurrency)
    ensures r.Failure? ==> r.error == NegativeAmount
  {
    if amount < 0.0 then Failure(NegativeAmount)
    else Success(Money(amount, currency.GetOr(DefaultCurrency)))
  }

  function Add(a: Money, b: Money): (r: Result<Money, string>)
    requires Valid(a) && Valid(b)
    ensures r.Success? <==> a.currency == b.currency
    ensures r.Success? ==> Valid(r.value) && r.value == Money(a.amount + b.amount, a.currency)
    ensures r.Failure? ==> r.error == "Cannot add different currencies"
  {
    if a.currency != b.currency then Failure("Cannot add different currencies")
    else Create(a.amount + b.amount, Some(a.currency))
  }

  function Subtract(a: Money, b: Money): (r: Result<Money, string>)
    requires Valid(a) && Valid(b)
    ensures r.Success? <==> a.currency == b.currency && a.amount >= b.amount
    ensures r.Success? ==> Valid(r.value) && r.value == Money(a.amount - b.amount, a.currency)
    ensures r.Failure? && a.currency != b.currency ==> r.error == "Cannot subtract different currencies"
    ensures r.Failure? && a.currency == b.currency ==> r.error == NegativeAmount
  {
    if a.currency != b.currency then Failure("Cannot subtract different currencies")
    else Create(a.amount - b.amount, Some(a.currency))
  }

  /** A negative factor fails unless the amount is zero. */
  function Multiply(m: Money, multiplier: real): (r: Result<Money, string>)
    requires Valid(m)
    ensures r.Success? <==> m.amount == 0.0 || multiplier >= 0.0
    ensures r.Success? ==> r.value == Money(m.amount * multiplier, m.currency)
    ensures r.Failure? ==> r.error == NegativeAmount
  {
    Create(m.amount * multiplier, Some(m.currency))
  }

  /** Zero fails with its own message; a negative divisor fails through
      `create` unless the amount is zero. */
  function Divide(m: Money, divisor: real): (r: Result<Money, string>)
    requires Valid(m)
    ensures r.Success? <==> divisor != 0.0 && (m.amount == 0.0 || divisor > 0.0)
    ensures r.Success? ==> r.value == Money(m.amount / divisor, m.currency)
    ensures divisor == 0.0 ==> r == Failure("Cannot divide by zero")
    ensures divisor < 0.0 && m.amount > 0.0 ==> r == Failure(NegativeAmount)
  {
    if divisor == 0.0 then Failure("Cannot divide by zero")
    else Create(m.amount / divisor, Some(m.currency))
  }

  function IsGreaterThan(a: Money, b: Money): (r: Result<bool, string>)
    ensures r.Success? <==> a.currency == b.currency
    ensures r.Success? ==> (r.value <==> a.amount > b.amount)
    ensures r.Failure? ==> r.error == "Cannot compare different currencies"
  {
    if a.currency != b.currency then Failure("Cannot compare different currencies")
    else Success(a.amount > b.amount)
  }

  function IsLessThan(a: Money, b: Money): (r: Result<bool, string>)
    ensures r.Success? <==> a.currency == b.currency
    ensures r.Success? ==> (r.value <==> a.amount < b.amount)
    ensures r.Failure? ==> r.error == "Cannot compare different currencies"
  {
    if a.currency != b.currency then Failure("Cannot compare different currencies")
    else Success(a.amount < b.amount)
  }

  /** Same currency and same amount: value equality. */
  function Equals(a: Money, b: Money): (r: bool)
    ensures r <==> a == b
  {
    a.currency == b.currency && a.amount == b.amount
  }

  /** The strict comparisons never hold together, and when both are false
      the two values are equal. */
  lemma ComparisonsExclusive(a: Money, b: Money)
    requires a.currency == b.currency
    ensures !(IsGreaterThan(a, b).value && IsLessThan(a, b).value)
    ensures !IsGreaterThan(a, b).value && !IsLessThan(a, b).value ==> Equals(a, b)
  {
  }

  /** Adding then subtracting the same amount gives the original back.
      This holds for the real amounts of the model; on JavaScript numbers
      rounding can break it (0.1 + 0.2 - 0.2 is 0.10000000000000003). */
  lemma AddSubtractRoundTrip(a: Money, b: Money)
    requires Valid(a) && Valid(b) && a.currency == b.currency
    ensures Add(a, b).Success?
    ensures Subtract(Add(a, b).value, b) == Success(a)
  {
  }

  /** Every successful operation keeps the currency of its receiver. */
  lemma CurrencyPreserved(a: Money, b: Money, k: real)
    requires Valid(a) && Valid(b)
    ensures Add(a, b).Success? ==> Add(a, b).value.currency == a.currency
    ensures Subtract(a, b).Success? ==> Subtract(a, b).value.currency == a.currency
    ensures Multiply(a, k).Success? ==> Multiply(a, k).value.currency == a.currency
    ensures Divide(a, k).Success? ==> Divide(a, k).value.currency == a.currency
  {
  }
}
