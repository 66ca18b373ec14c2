/** The command handlers: create an account, make a deposit, make a withdrawal. */
module Handlers {
  import opened Wrappers
  import opened Errors
  import opened MoneyValue
  import BalanceValue
  import opened Account
  import opened Mapper
  import opened Snapshots
  import EventStore

  /** What `MakeDepositCommandHandler.execute` does to the account it loaded, as a value. */
  function DepositStep(loaded: Option<AccountState>, number: string, money: Money): (r: Result<AccountState, Error>)
    ensures loaded.None? ==> r == Failure(NotFound(number))
    ensures loaded.Some? ==> (r.Success? <==> Deposited(loaded.value.balance, money).Success?)
    ensures loaded.Some? && r.Failure? ==> r.error == Deposited(loaded.value.balance, money).error
    ensures r.Success? ==>
      && r.value == loaded.value.(balance := r.value.balance)
      && r.value.balance.Some? && loaded.value.balance.Some?
      && r.value.balance.value.money.amount == loaded.value.balance.value.money.amount + money.amount
      && r.value.balance.value.money.currency == loaded.value.balance.value.money.currency
  {
    if loaded.None? then Failure(NotFound(number))
    else
      var deposited := Deposited(loaded.value.balance, money);
      if deposited.Failure? then Failure(deposited.error)
      else Success(loaded.value.(balance := Some(deposited.value)))
  }

  /** The error the withdraw handler's catch block throws for `e`. */
  function WithdrawError(e: Error): Error {
    if e.Message() == "Insufficient balance" then BadRequest("Insufficient balance") else e
  }

  /** Of the errors `withdraw` can throw, only the insufficient-balance one carries the message
      the handler tests for. */
  lemma OnlyInsufficientBalanceMatches(balance: Option<BalanceValue.Balance>, money: Money)
    requires Withdrawn(balance, money).Failure?
    ensures var e := Withdrawn(balance, money).error;
      WithdrawError(e) == if e == InsufficientBalance then BadRequest("Insufficient balance") else e
  {
    var e := Withdrawn(balance, money).error;
    if e == UndefinedBalance("money") {
      assert |e.Message()| != |"Insufficient balance"|;
    }
  }

  /** What `MakeWithdrawCommandHandler.execute` does to the account it loaded, as a value. */
  function WithdrawStep(loaded: Option<AccountState>, number: string, money: Money): (r: Result<AccountState, Error>)
    ensures loaded.None? ==> r == Failure(NotFound(number))
    ensures loaded.Some? ==> (r.Success? <==> Withdrawn(loaded.value.balance, money).Success?)
    ensures loaded.Some? && r.Failure? ==>
      r.error == WithdrawError(Withdrawn(loaded.value.balance, money).error)
    ensures r.Success? ==>
      && r.value == loaded.value.(balance := r.value.balance)
      && r.value.balance.Some? && loaded.value.balance.Some?
      && r.value.balance.value.money.amount == loaded.value.balance.value.money.amount - money.amount
      && r.value.balance.value.money.currency == loaded.value.balance.value.money.currency
  {
    if loaded.None? then Failure(NotFound(number))
    else
      var withdrawn := Withdrawn(loaded.value.balance, money);
      if withdrawn.Failure? then Failure(WithdrawError(withdrawn.error))
      else Success(loaded.value.(balance := Some(withdrawn.value)))
  }

  /** The withdraw handler reports BadRequest("Insufficient balance") exactly when the account
      holds less than a positive amount; every other failure of `withdraw` passes through
      unchanged. */
  lemma WithdrawStepErrors(loaded: Option<AccountState>, number: string, money: Money)
    requires loaded.Some?
    ensures var r := WithdrawStep(loaded, number, money);
      var b := loaded.value.balance;
      && (r == Failure(BadRequest("Insufficient balance")) <==>
            money.amount > 0 && b.Some? && b.value.money.amount < money.amount)
      && (r.Failure? && r.error != BadRequest("Insufficient balance") ==>
            r.error == Withdrawn(b, money).error)
  {
    if Withdrawn(loaded.value.balance, money).Failure? {
      OnlyInsufficientBalanceMatches(loaded.value.balance, money);
    }
  }

  /** `CreateBankAccountCommandHandler.execute(command)`: builds the account with the factory,
      saves it once, and returns the factory's account; a failing save propagates. */
  method CreateBankAccount(snapshots: SnapshotStore, uuid: string, randomText: string,
                           ownerName: string, ownerDocument: string, saveFault: Option<DriverFault>)
    returns (r: Result<BankAccount, Error>)
    requires snapshots.Valid()
    modifies snapshots
    ensures snapshots.Valid()
    ensures r.Success? <==> saveFault.None?
    ensures r.Failure? ==> r.error == StorageFailure(saveFault.value)
    ensures var row := ToPersistence(Opened(uuid, randomText, ownerName, ownerDocument)).value;
      && (r.Success? ==> fresh(r.value) && r.value.State() == Opened(uuid, randomText, ownerName, ownerDocument))
      && snapshots.rows == (if r.Success? then old(snapshots.rows)[row.number := row] else old(snapshots.rows))
      && snapshots.writes == (if r.Success? then old(snapshots.writes) + [row] else old(snapshots.writes))
  {
    var account := CreateAccount(uuid, randomText, ownerName, ownerDocument);
    var saved := snapshots.Save(account, saveFault);
    if saved.Fail? {
      return Failure(saved.error);
    }
    r := Success(account);
  }

  /** The account a `findByNumber` port returned, as a value. */
  function Found(found: BankAccount?): Option<AccountState>
    reads found
  {
    if found == null then None else Some(found.State())
  }

  /** `MakeDepositCommandHandler.execute(command)` after `findByNumber` returned `found`:
      NotFound for null, then deposit, commit and update. `update` runs once and only after a
      successful deposit, and the handler returns what it returned. */
  method MakeDeposit(snapshots: SnapshotStore, found: BankAccount?, number: string, money: Money,
                     updateFault: Option<DriverFault>)
    returns (r: Result<BankAccount, Error>)
    requires snapshots.Valid()
    modifies snapshots, found
    ensures snapshots.Valid()
    ensures var step := DepositStep(old(Found(found)), number, money);
      var row := if step.Success? then ToPersistence(step.value).value else Mapper.BankAccountEntity("", "", "", 0);
      && (found != null ==> found.State() == if step.Success? then step.value else old(found.State()))
      && (r.Success? <==> step.Success? && updateFault.None?)
      && (r.Failure? ==> r.error == if step.Failure? then step.error else StorageFailure(updateFault.value))
      && (r.Success? ==> r.value == found)
      && snapshots.rows == (if r.Success? then old(snapshots.rows)[row.number := row] else old(snapshots.rows))
      && snapshots.writes == (if r.Success? then old(snapshots.writes) + [row] else old(snapshots.writes))
  {
    if found == null {
      return Failure(NotFound(number));
    }
    var deposited := found.Deposit(money);
    if deposited.Fail? {
      return Failure(deposited.error);
    }
    found.Commit();
    r := snapshots.Update(found, updateFault);
  }

  /** `MakeWithdrawCommandHandler.execute(command)` after `findByNumber` returned `found`:
      NotFound for null, then withdraw and commit inside a try/catch that turns
      "Insufficient balance" into BadRequest, then update. */
  method MakeWithdraw(snapshots: SnapshotStore, found: BankAccount?, number: string, money: Money,
                      updateFault: Option<DriverFault>)
    returns (r: Result<BankAccount, Error>)
    requires snapshots.Valid()
    modifies snapshots, found
    ensures snapshots.Valid()
    ensures var step := WithdrawStep(old(Found(found)), number, money);
      var row := if step.Success? then ToPersistence(step.value).value else Mapper.BankAccountEntity("", "", "", 0);
      && (found != null ==> found.State() == if step.Success? then step.value else old(found.State()))
      && (r.Success? <==> step.Success? && updateFault.None?)
      && (r.Failure? ==> r.error == if step.Failure? then step.error else StorageFailure(updateFault.value))
      && (r.Success? ==> r.value == found)
      && snapshots.rows == (if r.Success? then old(snapshots.rows)[row.number := row] else old(snapshots.rows))
      && snapshots.writes == (if r.Success? then old(snapshots.writes) + [row] else old(snapshots.writes))
  {
    if found == null {
      return Failure(NotFound(number));
    }
    var withdrawn := found.Withdraw(money);
    if withdrawn.Fail? {
      return Failure(WithdrawError(withdrawn.error));
    }
    found.Commit();
    r := snapshots.Update(found, updateFault);
  }

  /** A deposit command over the ORM adapter: its `findByNumber`, then the handler. */
  method DepositWithOrmRepository(snapshots: SnapshotStore, events: EventStore.EventStore, number: string,
                                  money: Money, updateFault: Option<DriverFault>)
    returns (r: Result<BankAccount, Error>)
    requires snapshots.Valid()
    modifies snapshots
    ensures snapshots.Valid()
    ensures var step := DepositStep(Lookup(old(snapshots.rows), events.log, number), number, money);
      && (r.Success? <==> step.Success? && updateFault.None?)
      && (r.Failure? ==> r.error == if step.Failure? then step.error else StorageFailure(updateFault.value))
      && (r.Failure? ==> snapshots.rows == old(snapshots.rows) && snapshots.writes == old(snapshots.writes))
  {
    var found := FindByNumber(snapshots, events, number);
    r := MakeDeposit(snapshots, found, number, money, updateFault);
  }

  /** A withdraw command over the ORM adapter: its `findByNumber`, then the handler. */
  method WithdrawWithOrmRepository(snapshots: SnapshotStore, events: EventStore.EventStore, number: string,
                                   money: Money, updateFault: Option<DriverFault>)
    returns (r: Result<BankAccount, Error>)
    requires snapshots.Valid()
    modifies snapshots
    ensures snapshots.Valid()
    ensures var step := WithdrawStep(Lookup(old(snapshots.rows), events.log, number), number, money);
      && (r.Success? <==> step.Success? && updateFault.None?)
      && (r.Failure? ==> r.error == if step.Failure? then step.error else StorageFailure(updateFault.value))
      && (r.Failure? ==> snapshots.rows == old(snapshots.rows) && snapshots.writes == old(snapshots.writes))
  {
    var found := FindByNumber(snapshots, events, number);
    r := MakeWithdraw(snapshots, found, number, money, updateFault);
  }

  /** As written, a stored account can never be credited or debited: the mapper leaves its
      balance undefined, so every positive deposit or withdrawal throws a TypeError. */
  lemma LoadedAccountsCannotMove(rows: Rows, log: seq<EventStore.StoredEvent>, number: string, money: Money)
    requires number in rows && money.amount > 0
    ensures DepositStep(Lookup(rows, log, number), number, money) == Failure(UndefinedBalance("add"))
    ensures WithdrawStep(Lookup(rows, log, number), number, money) == Failure(UndefinedBalance("money"))
  {
    OnlyInsufficientBalanceMatches(None, money);
  }

  /** A deposit in the account's currency is saved as a row whose balance is the sum and whose
      other columns are unchanged. */
  lemma DepositStepStoresSum(s: AccountState, number: string, money: Money)
    requires s.balance.Some? && money.amount > 0 && money.currency == s.balance.value.money.currency
    ensures var r := DepositStep(Some(s), number, money);
      && r.Success?
      && ToPersistence(r.value).value == ToPersistence(s).value.(balance := s.balance.value.money.amount + money.amount)
  {
  }

  /** A withdrawal in the account's currency that the balance covers is saved as a row whose
      balance is the difference and whose other columns are unchanged. */
  lemma WithdrawStepStoresDifference(s: AccountState, number: string, money: Money)
    requires s.balance.Some? && money.currency == s.balance.value.money.currency
    requires 0 < money.amount <= s.balance.value.money.amount
    ensures var r := WithdrawStep(Some(s), number, money);
      && r.Success?
      && ToPersistence(r.value).value == ToPersistence(s).value.(balance := s.balance.value.money.amount - money.amount)
  {
  }
}
