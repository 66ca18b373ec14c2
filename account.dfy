/** The `BankAccount` aggregate, taken to extend `VersionedAggregateRoot` for its version
    state (the class as written extends nothing), and `BankAccountFactory`. */
module Account {
  import opened Wrappers
  import opened Errors
  import Text
  import opened MoneyValue
  import BalanceValue
  import opened OwnerValue

  type Balance = BalanceValue.Balance

  /** The zero BRL balance a new account starts with. */
  const ZeroBalance: Balance := BalanceValue.Balance(ZeroBrl)

  /** A snapshot of every field of a `BankAccount` object. `balance` and `versionedId` are
      `None` while the JavaScript property is still undefined. */
  datatype AccountState = AccountState(
    id: string,
    number: string,
    owner: Owner,
    balance: Option<Balance>,
    versionedId: Option<string>,
    version: int)

  /** `validateAmount`: only strictly positive amounts pass. */
  function ValidateAmount(amount: int): Outcome<Error> {
    if amount <= 0 then Fail(AmountNotPositive) else Pass
  }

  /** The balance `deposit(money)` leaves behind, or the error it throws. */
  function Deposited(balance: Option<Balance>, money: Money): (r: Result<Balance, Error>)
    ensures money.amount <= 0 ==> r == Failure(AmountNotPositive)
    ensures money.amount > 0 && balance.None? ==> r == Failure(UndefinedBalance("add"))
    ensures r.Success? <==>
      money.amount > 0 && balance.Some? && balance.value.money.currency == money.currency
    ensures r.Failure? && money.amount > 0 && balance.Some? ==> r.error == AddCurrencyMismatch
    ensures r.Success? ==>
      r.value.money == MoneyOf(balance.value.money.amount + money.amount, balance.value.money.currency)
  {
    if ValidateAmount(money.amount).Fail? then Failure(ValidateAmount(money.amount).error)
    else if balance.None? then Failure(UndefinedBalance("add"))
    else BalanceValue.Add(balance.value, money)
  }

  /** The balance `withdraw(money)` leaves behind, or the error it throws. The account's own
      funds check runs before `Balance.subtract`, so it wins over a currency mismatch. */
  function Withdrawn(balance: Option<Balance>, money: Money): (r: Result<Balance, Error>)
    ensures money.amount <= 0 ==> r == Failure(AmountNotPositive)
    ensures money.amount > 0 && balance.None? ==> r == Failure(UndefinedBalance("money"))
    ensures money.amount > 0 && balance.Some? && balance.value.money.amount < money.amount ==>
      r == Failure(InsufficientBalance)
    ensures r.Success? <==>
      money.amount > 0 && balance.Some? && balance.value.money.amount >= money.amount
      && balance.value.money.currency == money.currency
    ensures r.Failure? && money.amount > 0 && balance.Some? && balance.value.money.amount >= money.amount ==>
      r.error == SubtractCurrencyMismatch
    ensures r.Success? ==>
      r.value.money == MoneyOf(balance.value.money.amount - money.amount, balance.value.money.currency)
  {
    if ValidateAmount(money.amount).Fail? then Failure(ValidateAmount(money.amount).error)
    else if balance.None? then Failure(UndefinedBalance("money"))
    else if balance.value.money.amount < money.amount then Failure(InsufficientBalance)
    else BalanceValue.Subtract(balance.value, money)
  }

  /** Withdrawing the whole balance leaves zero in the same currency. */
  lemma WithdrawAll(b: Balance)
    requires b.money.amount > 0
    ensures Withdrawn(Some(b), b.money) == Success(BalanceValue.Balance(MoneyOf(0, b.money.currency)))
  {
  }

  /** A successful withdrawal followed by a deposit of the same money restores the balance. */
  lemma DepositUndoesWithdraw(b: Balance, money: Money)
    requires Withdrawn(Some(b), money).Success?
    ensures Deposited(Some(Withdrawn(Some(b), money).value), money) == Success(b)
  {
    var w := Withdrawn(Some(b), money).value;
    assert w.money == MoneyOf(b.money.amount - money.amount, b.money.currency);
    var d := Deposited(Some(w), money);
    assert d.value.money == b.money;
  }

  class BankAccount {
    var id: string
    var number: string
    var owner: Owner
    var balance: Option<Balance>
    /** `VersionedAggregateRoot.versionedId`, the event stream this aggregate belongs to. */
    var versionedId: Option<string>
    /** The private `[VERSION]` field of `VersionedAggregateRoot`. */
    var version: int

    function State(): AccountState
      reads this
    {
      AccountState(id, number, owner, balance, versionedId, version)
    }

    /** `new BankAccount()` followed by the assignments of `id`, `number` and `owner` that
        both the factory and the mapper make; the version starts at 0. */
    constructor (id: string, number: string, owner: Owner)
      ensures State() == AccountState(id, number, owner, None, None, 0)
    {
      this.id := id;
      this.number := number;
      this.owner := owner;
      balance := None;
      versionedId := None;
      version := 0;
    }

    /** The `version` getter. */
    function Version(): int
      reads this
    {
      version
    }

    /** `setVersion(v)`: the getter returns `v` afterwards; nothing else changes. */
    method SetVersion(v: int)
      modifies this`version
      ensures Version() == v
      ensures State() == old(State()).(version := v)
    {
      version := v;
    }

    /** `deposit(money)`: on success the balance becomes the sum; on failure it is untouched. */
    method Deposit(money: Money) returns (r: Outcome<Error>)
      modifies this`balance
      ensures r.Pass? <==> Deposited(old(balance), money).Success?
      ensures r.Fail? ==> r.error == Deposited(old(balance), money).error
      ensures State() == old(State()).(balance :=
        if r.Pass? then Some(Deposited(old(balance), money).value) else old(balance))
    {
      var valid := ValidateAmount(money.amount);
      if valid.Fail? {
        return valid;
      }
      if balance.None? {
        return Fail(UndefinedBalance("add"));
      }
      var sum := BalanceValue.Add(balance.value, money);
      if sum.Failure? {
        return Fail(sum.error);
      }
      balance := Some(sum.value);
      r := Pass;
    }

    /** `withdraw(money)`: on success the balance becomes the difference; on failure it is
        untouched. */
    method Withdraw(money: Money) returns (r: Outcome<Error>)
      modifies this`balance
      ensures r.Pass? <==> Withdrawn(old(balance), money).Success?
      ensures r.Fail? ==> r.error == Withdrawn(old(balance), money).error
      ensures State() == old(State()).(balance :=
        if r.Pass? then Some(Withdrawn(old(balance), money).value) else old(balance))
    {
      var valid := ValidateAmount(money.amount);
      if valid.Fail? {
        return valid;
      }
      if balance.None? {
        return Fail(UndefinedBalance("money"));
      }
      if balance.value.money.amount < money.amount {
        return Fail(InsufficientBalance);
      }
      var diff := BalanceValue.Subtract(balance.value, money);
      if diff.Failure? {
        return Fail(diff.error);
      }
      balance := Some(diff.value);
      r := Pass;
    }

    /** `AggregateRoot.commit()`: no event is ever staged, so publishing is a no-op. */
    method Commit() {
    }
  }

  /** The account number `BankAccountFactory` derives from the text of a random number. */
  function GeneratedNumber(randomText: string): (r: string)
    ensures |r| <= 13
  {
    Text.Substring(randomText, 2, 15)
  }

  /** The account `BankAccountFactory.create` builds, as a value. */
  function Opened(uuid: string, randomText: string, ownerName: string, ownerDocument: string): AccountState {
    AccountState(uuid, GeneratedNumber(randomText), Owner(ownerName, ownerDocument),
      Some(ZeroBalance), Some(uuid), 0)
  }

  /** `BankAccountFactory.create(ownerName, ownerDocument)`. `uuid` stands for `randomUUID()`
      and `randomText` for `Math.random().toString(36)`. */
  method CreateAccount(uuid: string, randomText: string, ownerName: string, ownerDocument: string)
    returns (a: BankAccount)
    ensures fresh(a)
    ensures a.State() == Opened(uuid, randomText, ownerName, ownerDocument)
    ensures a.id == uuid && a.versionedId == Some(uuid)
    ensures a.number == GeneratedNumber(randomText) && |a.number| <= 13
    ensures a.owner == Owner(ownerName, ownerDocument)
    ensures a.balance == Some(ZeroBalance)
    ensures a.Version() == 0
  {
    var owner := Owner(ownerName, ownerDocument);
    a := new BankAccount(uuid, GeneratedNumber(randomText), owner);
    a.versionedId := Some(uuid);
    a.balance := Some(BalanceValue.Balance(ZeroBrl));
  }
}
