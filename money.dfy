/** The `Money` value object: a non-negative amount in minor units (cents) and a currency code. */
module MoneyValue {
  import opened Wrappers
  import opened Errors
  import Text

  const DefaultCurrency: string := "BRL"

  /** `currency.trim().length === 0` (an empty string is blank too). */
  predicate IsBlank(currency: string) {
    |Text.Trim(currency)| == 0
  }

  datatype MoneyData = MoneyOf(amount: int, currency: string)

  /** Every `Money` that exists passed the constructor's checks (see `New`). */
  type Money = m: MoneyData | m.amount >= 0 && !Text.AllWhitespace(m.currency)
    witness assert !Text.IsWhitespace(DefaultCurrency[0]); MoneyOf(0, DefaultCurrency)

  /** `new Money(0, 'BRL')`. */
  const ZeroBrl: Money := assert !Text.IsWhitespace(DefaultCurrency[0]); MoneyOf(0, DefaultCurrency)

  /** `new Money(amount, currency)`: the amount is checked before the currency. */
  function New(amount: int, currency: string): (r: Result<Money, Error>)
    ensures amount < 0 ==> r == Failure(AmountNegative)
    ensures amount >= 0 && Text.AllWhitespace(currency) ==> r == Failure(CurrencyEmpty)
    ensures r.Success? <==> amount >= 0 && !Text.AllWhitespace(currency)
    ensures r.Success? ==> r.value.amount == amount && r.value.currency == currency
  {
    Text.TrimEmptyIffAllWhitespace(currency);
    if amount < 0 then Failure(AmountNegative)
    else if IsBlank(currency) then Failure(CurrencyEmpty)
    else Success(MoneyOf(amount, currency))
  }

  /** `new Money(amount)`: the currency parameter defaults to BRL, which is never blank. */
  lemma DefaultCurrencyAccepted(amount: int)
    ensures New(amount, DefaultCurrency).Success? <==> amount >= 0
  {
    assert !Text.IsWhitespace(DefaultCurrency[0]);
  }

  /** `money.add(other)`: same currency required; the sum keeps the receiver's currency. */
  function Add(m: Money, other: Money): (r: Result<Money, Error>)
    ensures r.Success? <==> m.currency == other.currency
    ensures r.Failure? ==> r.error == AddCurrencyMismatch
    ensures r.Success? ==> r.value.amount == m.amount + other.amount && r.value.currency == m.currency
  {
    if m.currency != other.currency then Failure(AddCurrencyMismatch)
    else New(m.amount + other.amount, m.currency)
  }

  /** `money.subtract(other)`: the currency check comes first, then the funds check. */
  function Subtract(m: Money, other: Money): (r: Result<Money, Error>)
    ensures m.currency != other.currency ==> r == Failure(SubtractCurrencyMismatch)
    ensures m.currency == other.currency && m.amount < other.amount ==> r == Failure(InsufficientFunds)
    ensures r.Success? <==> m.currency == other.currency && m.amount >= other.amount
    ensures r.Success? ==> r.value.amount == m.amount - other.amount && r.value.currency == m.currency
  {
    if m.currency != other.currency then Failure(SubtractCurrencyMismatch)
    else if m.amount < other.amount then Failure(InsufficientFunds)
    else New(m.amount - other.amount, m.currency)
  }

  /** `money.equals(other)`: structural equality of amount and currency. */
  function Equals(m: Money, other: Money): (r: bool)
    ensures r <==> m == other
  {
    m.amount == other.amount && m.currency == other.currency
  }

  /** Subtracting what was just added gives back the receiver. */
  lemma SubtractUndoesAdd(m: Money, other: Money)
    requires m.currency == other.currency
    ensures Add(m, other).Success?
    ensures Subtract(Add(m, other).value, other) == Success(m)
  {
  }

  /** Adding what was just subtracted gives back the receiver. */
  lemma AddUndoesSubtract(m: Money, other: Money)
    requires m.currency == other.currency && other.amount <= m.amount
    ensures Subtract(m, other).Success?
    ensures Add(Subtract(m, other).value, other) == Success(m)
  {
  }

  /** Addition of money in one currency does not depend on the order of the operands. */
  lemma AddCommutes(m: Money, other: Money)
    ensures Add(m, other) == Add(other, m)
  {
  }
}
