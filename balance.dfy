/** The `Balance` value object: a wrapper around one `Money` that delegates to it. */
module BalanceValue {
  import opened Wrappers
  import opened Errors
  import opened MoneyValue

  datatype Balance = Balance(money: Money)

  /** `Balance.fromAmount(amount, currency)`: builds the money first, so it fails as `new Money` does. */
  function FromAmount(amount: int, currency: string): (r: Result<Balance, Error>)
    ensures r.Success? <==> New(amount, currency).Success?
    ensures r.Success? ==> r.value.money == New(amount, currency).value
    ensures r.Failure? ==> r.error == New(amount, currency).error
  {
    match New(amount, currency)
    case Success(m) => Success(Balance(m))
    case Failure(e) => Failure(e)
  }

  /** `balance.add(money)`: a new balance holding `this.money.add(money)`. */
  function Add(b: Balance, m: Money): (r: Result<Balance, Error>)
    ensures r.Success? <==> b.money.currency == m.currency
    ensures r.Failure? ==> r.error == AddCurrencyMismatch
    ensures r.Success? ==> r.value.money == MoneyOf(b.money.amount + m.amount, m.currency)
  {
    match MoneyValue.Add(b.money, m)
    case Success(sum) => Success(Balance(sum))
    case Failure(e) => Failure(e)
  }

  /** `balance.subtract(money)`: a new balance holding `this.money.subtract(money)`. */
  function Subtract(b: Balance, m: Money): (r: Result<Balance, Error>)
    ensures b.money.currency != m.currency ==> r == Failure(SubtractCurrencyMismatch)
    ensures b.money.currency == m.currency && b.money.amount < m.amount ==> r == Failure(InsufficientFunds)
    ensures r.Success? <==> b.money.currency == m.currency && b.money.amount >= m.amount
    ensures r.Success? ==> r.value.money == MoneyOf(b.money.amount - m.amount, m.currency)
  {
    match MoneyValue.Subtract(b.money, m)
    case Success(diff) => Success(Balance(diff))
    case Failure(e) => Failure(e)
  }

  /** `balance.equals(other)`: equality of the wrapped money, hence of the balances. */
  function Equals(b: Balance, other: Balance): (r: bool)
    ensures r <==> b == other
  {
    MoneyValue.Equals(b.money, other.money)
  }

  /** `Balance.fromAmount(amount)` with the default currency yields BRL money. */
  lemma FromAmountDefault(amount: int)
    ensures FromAmount(amount, DefaultCurrency).Success? <==> amount >= 0
    ensures amount >= 0 ==> FromAmount(amount, DefaultCurrency).value.money == MoneyOf(amount, DefaultCurrency)
  {
    DefaultCurrencyAccepted(amount);
  }
}
