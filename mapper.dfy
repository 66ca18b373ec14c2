/** `BankAccountMapper`: translation between the aggregate and the `BankAccountEntity` snapshot row (table `bank_account_entity`). */
module Mapper {
  import opened Wrappers
  import opened Errors
  import opened MoneyValue
  import BalanceValue
  import opened OwnerValue
  import opened Account

  /** `BankAccountEntity`: the row has no owner document and no currency column. */
  datatype BankAccountEntity = BankAccountEntity(id: string, number: string, owner: string, balance: int)

  /** `toPersistence(bankAccount)`: copies id, number, owner name and balance amount, dropping
      the document and the currency; reading the amount of an undefined balance throws. */
  function ToPersistence(s: AccountState): (r: Result<BankAccountEntity, Error>)
    ensures r.Success? <==> s.balance.Some?
    ensures r.Failure? ==> r.error == UndefinedBalance("money")
    ensures r.Success? ==>
      r.value.id == s.id && r.value.number == s.number && r.value.owner == s.owner.name
      && r.value.balance == s.balance.value.money.amount
  {
    if s.balance.None? then Failure(UndefinedBalance("money"))
    else Success(BankAccountEntity(s.id, s.number, s.owner.name, s.balance.value.money.amount))
  }

  /** The account `toDomain(entity)` builds: the stored owner string becomes both the name and
      the document, and neither `balance` nor `versionedId` is assigned. */
  function DomainOf(e: BankAccountEntity): AccountState {
    AccountState(e.id, e.number, Owner(e.owner, e.owner), None, None, 0)
  }

  /** `toDomain(entity)`, which allocates a fresh aggregate. */
  method ToDomain(e: BankAccountEntity) returns (a: BankAccount)
    ensures fresh(a)
    ensures a.State() == DomainOf(e)
  {
    var owner := Owner(e.owner, e.owner);
    a := new BankAccount(e.id, e.number, owner);
  }

  /** A row read back keeps id, number and owner name, but the balance and the stream id are
      lost and the document is replaced by the name: the round trip never gives the account back. */
  lemma ToDomainAfterToPersistence(s: AccountState)
    requires s.balance.Some?
    ensures var d := DomainOf(ToPersistence(s).value);
      && d.id == s.id && d.number == s.number
      && d.owner == Owner(s.owner.name, s.owner.name)
      && d.balance.None? && d.versionedId.None? && d.version == 0
      && d != s
  {
  }

  /** What `toDomain` evidently intends: the balance is rebuilt from the balance column with
      `Balance.fromAmount` (whose currency defaults to BRL) and the stream id is the account id.
      A negative column, for which `fromAmount` throws "Amount cannot be negative", is turned
      into a missing balance here instead of an error. */
  function RestoredDomainOf(e: BankAccountEntity): AccountState {
    var balance := BalanceValue.FromAmount(e.balance, DefaultCurrency);
    AccountState(e.id, e.number, Owner(e.owner, e.owner),
      if balance.Success? then Some(balance.value) else None, Some(e.id), 0)
  }

  /** The restoring mapper gives a row with a non-negative balance column that amount in BRL,
      and a row with a negative one no balance. */
  lemma RestoredBalance(e: BankAccountEntity)
    ensures e.balance >= 0 ==>
      RestoredDomainOf(e).balance == Some(BalanceValue.Balance(MoneyOf(e.balance, DefaultCurrency)))
    ensures e.balance < 0 ==> RestoredDomainOf(e).balance.None?
  {
    BalanceValue.FromAmountDefault(e.balance);
  }

  /** With the restoring mapper a BRL account whose stream id is its id comes back whole,
      except for the owner document, which the row does not hold, and the version, which the
      repository attaches afterwards. */
  lemma RestoredRoundTrip(s: AccountState)
    requires s.balance.Some? && s.balance.value.money.currency == DefaultCurrency
    requires s.versionedId == Some(s.id)
    ensures RestoredDomainOf(ToPersistence(s).value)
      == s.(owner := Owner(s.owner.name, s.owner.name), version := 0)
  {
    BalanceValue.FromAmountDefault(s.balance.value.money.amount);
  }
}
