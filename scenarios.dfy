/** Multi-command scenarios over the corrected (restoring) mapper: what deposits and
    withdrawals do to a stored account once its balance is read back from the row. */
module Scenarios {
  import opened Wrappers
  import opened Errors
  import opened MoneyValue
  import BalanceValue
  import opened Account
  import opened Mapper
  import opened Snapshots
  import opened Handlers
  import EventStore

  /** The account the restoring repository loads for a stored row with a non-negative balance:
      it holds that many BRL and is saved back as the same row. */
  lemma RestoredLoaded(rows: Rows, log: seq<EventStore.StoredEvent>, number: string) returns (loaded: AccountState)
    requires number in rows && rows[number].balance >= 0
    ensures RestoredLookup(rows, log, number) == Some(loaded)
    ensures loaded.balance == Some(BalanceValue.Balance(MoneyOf(rows[number].balance, DefaultCurrency)))
    ensures ToPersistence(loaded) == Success(rows[number])
  {
    var row := rows[number];
    RestoredBalance(row);
    loaded := RestoredLookup(rows, log, number).value;
  }

  /** With the restoring mapper, a BRL deposit of a positive amount into a stored account with a
      non-negative balance succeeds and raises the stored balance by the amount. */
  lemma RestoredDepositAdds(rows: Rows, log: seq<EventStore.StoredEvent>, number: string, money: Money)
    requires number in rows && rows[number].balance >= 0
    requires money.amount > 0 && money.currency == DefaultCurrency
    ensures var r := DepositStep(RestoredLookup(rows, log, number), number, money);
      && r.Success?
      && ToPersistence(r.value).value == rows[number].(balance := rows[number].balance + money.amount)
  {
    var loaded := RestoredLoaded(rows, log, number);
    DepositStepStoresSum(loaded, number, money);
  }

  /** With the restoring mapper, a BRL withdrawal of a positive amount from a stored account
      succeeds exactly when the stored balance covers it, and is refused as a bad request
      otherwise. */
  lemma RestoredWithdrawChecksFunds(rows: Rows, log: seq<EventStore.StoredEvent>, number: string, money: Money)
    requires number in rows && rows[number].balance >= 0
    requires money.amount > 0 && money.currency == DefaultCurrency
    ensures var r := WithdrawStep(RestoredLookup(rows, log, number), number, money);
      && (r.Success? <==> money.amount <= rows[number].balance)
      && (r.Success? ==> ToPersistence(r.value).value == rows[number].(balance := rows[number].balance - money.amount))
      && (r.Failure? ==> r.error == BadRequest("Insufficient balance"))
  {
    var loaded := RestoredLoaded(rows, log, number);
    WithdrawStepErrors(Some(loaded), number, money);
    if money.amount <= rows[number].balance {
      WithdrawStepStoresDifference(loaded, number, money);
    }
  }

  /** The row a new account is saved as: its id, number and owner name, with a zero balance. */
  lemma OpenedRow(uuid: string, randomText: string, ownerName: string, ownerDocument: string)
    ensures ToPersistence(Opened(uuid, randomText, ownerName, ownerDocument))
      == Success(BankAccountEntity(uuid, GeneratedNumber(randomText), ownerName, 0))
  {
  }

  /** From a stored 100.00 BRL, loading with the restoring mapper: withdrawing 150.00 BRL is
      refused and withdrawing 40.00 BRL leaves 60.00 BRL. Amounts are in cents. */
  lemma Withdrawals(stored: BankAccountEntity)
    requires stored.balance == 10000
    ensures var n := stored.number;
      WithdrawStep(RestoredLookup(map[n := stored], [], n), n, MoneyOf(15000, DefaultCurrency))
        == Failure(BadRequest("Insufficient balance"))
    ensures var n := stored.number;
      var withdraw := WithdrawStep(RestoredLookup(map[n := stored], [], n), n, MoneyOf(4000, DefaultCurrency));
      withdraw.Success? && ToPersistence(withdraw.value).value.balance == 6000
  {
    var n := stored.number;
    DefaultCurrencyAccepted(15000);
    DefaultCurrencyAccepted(4000);
    RestoredWithdrawChecksFunds(map[n := stored], [], n, New(15000, DefaultCurrency).value);
    RestoredWithdrawChecksFunds(map[n := stored], [], n, New(4000, DefaultCurrency).value);
  }

  /** From a stored zero balance, loading with the restoring mapper, a deposit of 100.00 BRL
      is stored as 100.00. */
  lemma FirstDeposit(row: BankAccountEntity, hundred: Money)
    requires row.balance == 0 && hundred == MoneyOf(10000, DefaultCurrency)
    ensures var n := row.number;
      var deposit := DepositStep(RestoredLookup(map[n := row], [], n), n, hundred);
      deposit.Success? && ToPersistence(deposit.value).value == row.(balance := 10000)
  {
    RestoredDepositAdds(map[row.number := row], [], row.number, hundred);
  }

  /** Create an account for Alice: 0.00 BRL at version 0, saved with a zero balance; then
      deposit 100.00 BRL, try to withdraw 150.00 BRL and withdraw 40.00 BRL, each command
      loading the row the previous one wrote through the restoring mapper. */
  lemma AliceScenario(uuid: string, randomText: string)
    ensures Opened(uuid, randomText, "Alice", "111").balance == Some(ZeroBalance)
    ensures Opened(uuid, randomText, "Alice", "111").version == 0
    ensures var row := ToPersistence(Opened(uuid, randomText, "Alice", "111")).value;
      && var n := row.number;
      && var deposit := DepositStep(RestoredLookup(map[n := row], [], n), n, MoneyOf(10000, DefaultCurrency));
      && deposit.Success?
      && var stored := ToPersistence(deposit.value).value;
      && stored.balance == 10000
      && WithdrawStep(RestoredLookup(map[n := stored], [], n), n, MoneyOf(15000, DefaultCurrency))
         == Failure(BadRequest("Insufficient balance"))
      && var withdraw := WithdrawStep(RestoredLookup(map[n := stored], [], n), n, MoneyOf(4000, DefaultCurrency));
      && withdraw.Success? && ToPersistence(withdraw.value).value.balance == 6000
  {
    OpenedRow(uuid, randomText, "Alice", "111");
    var row := ToPersistence(Opened(uuid, randomText, "Alice", "111")).value;
    var n := row.number;
    DefaultCurrencyAccepted(10000);
    FirstDeposit(row, New(10000, DefaultCurrency).value);
    var deposit := DepositStep(RestoredLookup(map[n := row], [], n), n, MoneyOf(10000, DefaultCurrency));
    Withdrawals(ToPersistence(deposit.value).value);
  }
}
