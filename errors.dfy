/** The exceptions thrown by the bank-account core, with the messages they carry. */
module Errors {

  /** A failure of a storage driver (a lost connection, a failed commit, a violated index),
      with the code it reports. */
  datatype DriverFault = DriverFault(code: int, message: string)

  datatype Error =
    // Money constructor
    | AmountNegative
    | CurrencyEmpty
    // Money.add / Money.subtract
    | AddCurrencyMismatch
    | SubtractCurrencyMismatch
    | InsufficientFunds
    // BankAccount.validateAmount / BankAccount.withdraw
    | AmountNotPositive
    | InsufficientBalance
    // the TypeError raised when a method reads a property of an undefined balance
    | UndefinedBalance(property: string)
    // HTTP exceptions raised by the command handlers
    | NotFound(number: string)
    | BadRequest(text: string)
    // a failure reported by a storage driver and rethrown
    | StorageFailure(fault: DriverFault)
  {
    /** The `message` property of the thrown error. */
    function Message(): string {
      match this
      case AmountNegative => "Amount cannot be negative"
      case CurrencyEmpty => "Currency cannot be empty"
      case AddCurrencyMismatch => "Cannot add money with different currencies"
      case SubtractCurrencyMismatch => "Cannot subtract money with different currencies"
      case InsufficientFunds => "Insufficient funds"
      case AmountNotPositive => "Amount must be greater than 0"
      case InsufficientBalance => "Insufficient balance"
      case UndefinedBalance(p) => "Cannot read properties of undefined (reading '" + p + "')"
      case NotFound(n) => "Bank account with number " + n + " not found"
      case BadRequest(t) => t
      case StorageFailure(f) => f.message
    }
  }
}
