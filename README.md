# Bank account with an event store: a Dafny model

This project models the domain core of a NestJS bank-account service and the persistence
rules around it:

- the `Money`, `Balance` and `Owner` value objects;
- the `BankAccount` aggregate, with the version state of `VersionedAggregateRoot` (src/shared/domain/aggregate-root.ts), which the model takes it to extend;
- `BankAccountFactory`;
- `BankAccountMapper`, between the aggregate and its snapshot row;
- `MongoEventStore`, over an in-memory event log;
- the ORM repository's `findByNumber`;
- the create, deposit and withdraw command handlers.

Amounts are exact integers in minor units (cents), because the balance column is
`numeric(15,2)`. Strings are `seq<char>`. Thrown exceptions are `Result`/`Outcome` values.
Each error carries the message the source gives it (`Errors.Error.Message`).

Files, one module each:

- `wrappers.dfy`: `Option`, `Result` and `Outcome`.
- `errors.dfy`: the errors and their messages, and `DriverFault`, a failure reported by a storage driver.
- `text.dfy`: JavaScript's `String.prototype.trim` and `substring`.
- `money.dfy`, `balance.dfy`, `owner.dfy`: the value objects. `Money` is a subset type, so every `Money` value passed the constructor's checks.
- `account.dfy`: the `AccountState` value, the pure `Deposited`/`Withdrawn` rules, the class `BankAccount` and the factory.
- `mapper.dfy`: `toPersistence`, `toDomain`, and the restoring variant `RestoredDomainOf` (see Findings).
- `event_store.dfy`: the event log. The unique index on `(streamId, position)` is the invariant `UniqueKeys`.
- `snapshots.dfy`: the snapshot table as a map keyed by account number, the repository ports' `save`/`update`, and `findByNumber`.
- `handlers.dfy`: the three command handlers, their step functions and the finding lemma.
- `scenarios.dfy`: deposits, withdrawals and an end-to-end scenario over the corrected mapper.

A handler receives the account that its injected `FindBankAccountRepository` port returned
(`BankAccount?`, like `BankAccount | null`). `DepositWithOrmRepository` and
`WithdrawWithOrmRepository` compose the handlers with `OrmFindBankAccountRepository.findByNumber`,
the only adapter of that port in the source. No module in the source registers these two
handlers or that adapter.

Neither the handlers nor the domain call `persist`. `commit()` publishes no event, because
none is ever staged. So no command changes the event log. The event log only gives versions
to `findByNumber`. The model has the same property: `FindByNumber` and the handlers cannot
modify an `EventStore`.

What the source does, which an event-sourced design would not:

- `deposit` and `withdraw` stage no events.
- The version is never advanced by a command.
- A duplicate key in `persist` is swallowed, not reported as a conflict.
- `toDomain` restores neither the balance nor the stream id (see Findings).
- In `withdraw` the account's own funds check runs before `Balance.subtract`. So too little money in another currency gives "Insufficient balance", not a currency mismatch.

## Model

| member | source | states |
|---|---|---|
| Text.TrimEmptyIffAllWhitespace | src/bank-account/domain/value-objects/money.ts:9-11 | `currency.trim().length === 0` holds exactly when every character is white space (the empty string included) |
| MoneyValue.New | src/bank-account/domain/value-objects/money.ts:2-12 | a negative amount fails with "Amount cannot be negative" before the currency is looked at; otherwise a blank currency fails with "Currency cannot be empty"; otherwise the money holds exactly the given amount and currency |
| MoneyValue.DefaultCurrencyAccepted | src/bank-account/domain/value-objects/money.ts:4 | with the default currency BRL, construction succeeds exactly for non-negative amounts |
| MoneyValue.Add | src/bank-account/domain/value-objects/money.ts:14-19 | fails with the add-mismatch error exactly when the currencies differ; otherwise returns the sum in the receiver's currency |
| MoneyValue.Subtract | src/bank-account/domain/value-objects/money.ts:21-29 | a currency mismatch is reported first; "Insufficient funds" exactly when the receiver's amount is smaller; otherwise the non-negative difference in the receiver's currency |
| MoneyValue.Equals | src/bank-account/domain/value-objects/money.ts:31-33 | true exactly when the two values are equal (amount and currency) |
| MoneyValue.SubtractUndoesAdd | src/bank-account/domain/value-objects/money.ts:14-29 | in one currency, adding then subtracting the same money gives the receiver back |
| MoneyValue.AddUndoesSubtract | src/bank-account/domain/value-objects/money.ts:14-29 | subtracting money in the same currency that the receiver covers succeeds, and adding that money back gives the receiver |
| MoneyValue.AddCommutes | src/bank-account/domain/value-objects/money.ts:14-19 | `a.add(b)` and `b.add(a)` give the same outcome |
| BalanceValue.FromAmount | src/bank-account/domain/value-objects/balance.ts:6-8 | succeeds exactly when `new Money(amount, currency)` does, wraps that money, and otherwise fails with the same error |
| BalanceValue.FromAmountDefault | src/bank-account/domain/value-objects/balance.ts:6-8 | with the default currency, succeeds exactly for non-negative amounts and holds BRL money of that amount |
| BalanceValue.Add | src/bank-account/domain/value-objects/balance.ts:10-12 | fails on a currency mismatch like `Money.add`; otherwise a new balance holding the sum |
| BalanceValue.Subtract | src/bank-account/domain/value-objects/balance.ts:14-16 | fails on a currency mismatch, then on insufficient funds, like `Money.subtract`; otherwise a new balance holding the difference |
| BalanceValue.Equals | src/bank-account/domain/value-objects/balance.ts:18-20 | true exactly when the two balances hold equal money |
| OwnerValue.Equals | src/bank-account/domain/value-objects/owner.ts:7-9 | true exactly when name and document are both equal |
| OwnerValue.EqualsIsEquivalence | src/bank-account/domain/value-objects/owner.ts:7-9 | `equals` is reflexive, symmetric and transitive |
| Account.Deposited | src/bank-account/domain/back-account.ts:13-22 | an amount <= 0 fails with "Amount must be greater than 0"; an undefined balance fails with a TypeError; a currency mismatch fails; otherwise the balance becomes old + amount in the same currency |
| Account.Withdrawn | src/bank-account/domain/back-account.ts:13-30 | an amount <= 0 fails first; then an undefined balance fails with a TypeError; then "Insufficient balance" exactly when the balance is smaller than the amount; then a currency mismatch; otherwise the balance becomes old - amount |
| Account.WithdrawAll | src/bank-account/domain/back-account.ts:24-30 | withdrawing exactly the balance leaves zero in the same currency |
| Account.DepositUndoesWithdraw | src/bank-account/domain/back-account.ts:19-30 | depositing what was just withdrawn restores the balance |
| Account.BankAccount.constructor | src/shared/domain/aggregate-root.ts:6-8 | a new aggregate has version 0, no balance and no stream id yet |
| Account.BankAccount.SetVersion | src/shared/domain/aggregate-root.ts:10-16 | afterwards the `version` getter returns the new version, and every other field, `versionedId` included, is unchanged |
| Account.BankAccount.Deposit | src/bank-account/domain/back-account.ts:19-22 | the balance becomes the `Deposited` result on success and is untouched on failure; id, number, owner and version never change |
| Account.BankAccount.Withdraw | src/bank-account/domain/back-account.ts:24-30 | the balance becomes the `Withdrawn` result on success and is untouched on failure; id, number, owner and version never change |
| Account.GeneratedNumber | src/bank-account/domain/factories/bank-account.factory.ts:17-19 | `substring(2, 15)` of the random text has at most 13 characters |
| Account.CreateAccount | src/bank-account/domain/factories/bank-account.factory.ts:11-25 | a fresh account whose `versionedId` is its id, whose owner has exactly the given name and document, whose number has at most 13 characters, with a zero BRL balance and version 0 |
| Mapper.ToPersistence | src/bank-account/infrastructure/mapper/bank-account.mapper.ts:18-26 | the row holds the account's id, number, owner name and balance amount (document and currency dropped); an undefined balance throws |
| Mapper.ToDomain | src/bank-account/infrastructure/mapper/bank-account.mapper.ts:8-16 | a fresh aggregate with the row's id and number, the owner string as both name and document, and neither balance nor stream id |
| Mapper.ToDomainAfterToPersistence | src/bank-account/infrastructure/mapper/bank-account.mapper.ts:8-26 | a round trip through the row keeps id, number and owner name, loses balance and stream id, so it never gives the account back |
| Mapper.RestoredBalance | src/bank-account/domain/value-objects/balance.ts:6-8 | rebuilding the balance with `Balance.fromAmount` gives that many BRL for a non-negative column and no balance for a negative one |
| Mapper.RestoredRoundTrip | src/bank-account/infrastructure/mapper/bank-account.mapper.ts:8-26 | with the balance and stream id restored, a BRL account comes back whole except for the owner document and the version |
| EventStore.AsBatch | src/shared/infrastructure/event-store/mongo-event-store.ts:19-21 | a single event is persisted as a one-element batch, an array as itself |
| EventStore.InsertMany | src/shared/infrastructure/event-store/mongo-event-store.ts:23-28 | the ordered insertion succeeds exactly when the log plus the batch has unique `(streamId, position)` keys, and then yields the log followed by the whole batch in order; otherwise it fails with code 11000 |
| EventStore.Appended | src/shared/infrastructure/event-store/mongo-event-store.ts:24-41 | the log after `persist` is either the old log or the old log plus the whole batch, and keeps the unique-key invariant |
| EventStore.EventStore.Persist | src/shared/infrastructure/event-store/mongo-event-store.ts:16-45 | stores the batch whole when nothing collides and the driver does not fail, else leaves the log unchanged; a duplicate key returns normally; any other driver failure is rethrown, also when the batch collides |
| EventStore.StaleBatchRejected | src/shared/infrastructure/event-store/mongo-event-store.ts:30-38 | a batch with one key already in the log changes nothing, whatever the driver does |
| EventStore.RacingBatchesOneWins | src/shared/infrastructure/event-store/mongo-event-store.ts:24-38 | of two batches that claim the same key, the first persisted is stored and the second leaves the log as it was |
| EventStore.PersistTwiceIsOnce | src/shared/infrastructure/event-store/mongo-event-store.ts:24-38 | persisting a non-empty batch again changes nothing |
| EventStore.LastVersion | src/shared/infrastructure/event-store/mongo-event-store.ts:47-54 | the result is the position of an event of the stream and no event of the stream has a higher position; 0 when the stream has no event |
| EventStore.LastVersionOtherStream | src/shared/infrastructure/event-store/mongo-event-store.ts:47-54 | events of other streams do not change a stream's last version |
| EventStore.LastVersionAfterNext | src/shared/infrastructure/event-store/mongo-event-store.ts:47-54 | after appending an event above the stream's last position, that position is the last version |
| EventStore.EventStore.GetLastVersion | src/shared/infrastructure/event-store/mongo-event-store.ts:47-54 | returns `LastVersion` of the current log and changes nothing |
| Snapshots.SnapshotStore.FindOne | src/bank-account/infrastructure/repositories/find-bank-account.repository.ts:29-31 | finds a row exactly when one has the given number, and that row has that number |
| Snapshots.LookupAsWritten | src/bank-account/infrastructure/repositories/find-bank-account.repository.ts:29-41 | no row gives null; a found account is the mapped row with the number asked for, no balance and no stream id, hence version 0 |
| Snapshots.RestoredLookupVersion | src/bank-account/infrastructure/repositories/find-bank-account.repository.ts:37-41 | with the restoring mapper the attached version is `LastVersion` of the account's stream: every position in that stream is at most the version, and it is 0 when the stream is empty |
| Snapshots.FindByNumber | src/bank-account/infrastructure/repositories/find-bank-account.repository.ts:23-44 | null exactly when no row has the number; otherwise a fresh account equal to the `toDomain` of the row with `getLastVersion(versionedId)` attached; neither store is modified |
| Snapshots.SnapshotStore.Save | src/bank-account/application/ports/create-bank-account.repository.ts:3-5 | writes `toPersistence(account)` under its number and records one write, or fails and changes nothing |
| Snapshots.SnapshotStore.Update | src/bank-account/application/ports/make-deposit.repository.ts:3-5 | writes `toPersistence(account)` under its number, records one write and returns the account, or fails and changes nothing |
| Handlers.DepositStep | src/bank-account/application/commands/make-deposit.command-handler.ts:24-38 | null is NotFound; otherwise it succeeds exactly when `deposit` does, propagates its error unchanged, and on success only the balance changes, to old + amount |
| Handlers.WithdrawStep | src/bank-account/application/commands/make-withdraw.command-handler.ts:24-43 | null is NotFound; otherwise it succeeds exactly when `withdraw` does, passes its error through the catch block, and on success only the balance changes, to old - amount |
| Handlers.OnlyInsufficientBalanceMatches | src/bank-account/application/commands/make-withdraw.command-handler.ts:38-42 | among the errors `withdraw` throws, only "Insufficient balance" becomes BadRequest; every other one is rethrown unchanged |
| Handlers.WithdrawStepErrors | src/bank-account/application/commands/make-withdraw.command-handler.ts:35-43 | the handler fails with BadRequest("Insufficient balance") exactly when a positive amount exceeds a defined balance; any other failure is `withdraw`'s own error |
| Handlers.CreateBankAccount | src/bank-account/application/commands/create-bank-account-command-handler.ts:17-27 | saves the factory's account exactly once and returns that account (zero BRL balance, version 0); a failing save propagates and writes nothing |
| Handlers.MakeDeposit | src/bank-account/application/commands/make-deposit.command-handler.ts:19-45 | NotFound or a deposit failure returns that error without calling `update`; on success `update` writes the account with balance old + amount exactly once and its result is returned |
| Handlers.MakeWithdraw | src/bank-account/application/commands/make-withdraw.command-handler.ts:19-53 | NotFound or a remapped withdraw failure returns without calling `update`; on success `update` writes the account with balance old - amount exactly once and its result is returned |
| Handlers.DepositWithOrmRepository | src/bank-account/application/commands/make-deposit.command-handler.ts:24-38 | composed with the ORM `findByNumber`, the deposit command's outcome is `DepositStep` of the looked-up account; on failure the snapshot table is untouched |
| Handlers.WithdrawWithOrmRepository | src/bank-account/application/commands/make-withdraw.command-handler.ts:24-46 | composed with the ORM `findByNumber`, the withdraw command's outcome is `WithdrawStep` of the looked-up account; on failure the snapshot table is untouched |
| Handlers.DepositStepStoresSum | src/bank-account/application/commands/make-deposit.command-handler.ts:35-38 | a deposit in the account's currency succeeds and is saved as the same row with balance old + amount |
| Handlers.WithdrawStepStoresDifference | src/bank-account/application/commands/make-withdraw.command-handler.ts:35-46 | a covered withdrawal in the account's currency succeeds and is saved as the same row with balance old - amount |
| Handlers.LoadedAccountsCannotMove | src/bank-account/infrastructure/mapper/bank-account.mapper.ts:8-16 | as written, every positive deposit into or withdrawal from a stored account fails with a TypeError |
| Scenarios.RestoredLoaded | src/bank-account/infrastructure/repositories/find-bank-account.repository.ts:37-41 | with the restoring mapper, a stored row with a non-negative balance loads as an account holding that many BRL that saves back as the same row |
| Scenarios.RestoredDepositAdds | src/bank-account/application/commands/make-deposit.command-handler.ts:35-38 | with the restoring mapper, a positive BRL deposit succeeds and the stored balance grows by the amount |
| Scenarios.RestoredWithdrawChecksFunds | src/bank-account/application/commands/make-withdraw.command-handler.ts:35-46 | with the restoring mapper, a positive BRL withdrawal succeeds exactly when the stored balance covers it (leaving balance - amount), and otherwise is a BadRequest |
| Scenarios.OpenedRow | src/bank-account/infrastructure/mapper/bank-account.mapper.ts:18-26 | a newly created account is saved as its id, generated number and owner name with a zero balance |
| Scenarios.FirstDeposit | src/bank-account/application/commands/make-deposit.command-handler.ts:24-38 | with the restoring mapper, from a stored zero balance, a deposit of 100.00 BRL is saved as 100.00 with the other columns unchanged |
| Scenarios.Withdrawals | src/bank-account/application/commands/make-withdraw.command-handler.ts:24-46 | with the restoring mapper, from a stored 100.00 BRL, withdrawing 150.00 is a BadRequest and withdrawing 40.00 leaves 60.00 |
| Scenarios.AliceScenario | src/bank-account/application/commands/create-bank-account-command-handler.ts:19-26 | create for Alice/111 gives 0.00 BRL at version 0; then, with the restoring mapper, deposit 100.00 gives 100.00; withdrawing 150.00 is refused; withdrawing 40.00 leaves 60.00 |

## Left out

- Mongo sessions and transactions, TypeORM `findOne`/`save`, `Logger` and `console.error` are not modelled as such. They are foreign driver calls. The in-memory stores keep their observable effects: atomic batches, lookup by number, last-writer-wins rows.
- A driver failure (`DriverFault`) is a parameter of the call it hits. This covers a lost connection, a failed commit, or a failing `save` or `update`. Nothing here models when such a failure happens.
- `EventPublisher.mergeObjectContext` and `AggregateRoot.commit` come from @nestjs/cqrs. `commit` is a method with no effect, because the aggregate never stages an event. The publisher that would call `persist` is not part of this model. The point at which `commit` runs, after the domain operation and before `update`, is therefore not observable.
- Concurrency is not modelled. Racing appends appear only as their sequential consequence under the unique `(streamId, position)` index: `RacingBatchesOneWins` and `StaleBatchRejected`.
- The event schema is not part of this model. Its unique index is assumed to be the invariant `UniqueKeys`. An event is only its stream id, position and an opaque payload.
- The `Version` and `AccountId`/`AccountNumber` value objects are not part of this model. A version is an integer, and ids and numbers are strings.
- JavaScript `number` arithmetic and the `parseFloat` column transformer are not modelled. Amounts are exact integers in cents. The 13-digit bound of `numeric(15,2)` is not modelled either.
- `randomUUID()` and `Math.random().toString(36)` become the parameters `uuid` and `randomText`.
- Two generated numbers that happen to be equal are not modelled. The snapshot table is keyed by account number, so the second `save` would overwrite the first row instead of adding a second row under another id.
- Snapshots.SnapshotStore.Update: the adapters behind the `update` ports are not part of this model. The model writes the row under the account number and returns the account it was given. Returning the argument is what keeps the handlers' log line, which reads `updatedAccount.balance.money.amount`, from throwing: an adapter that returned `toDomain` of the saved row, as the `save` adapter does, would hand back an account without a balance.
- EventStore.LastVersion: `getLastVersion` with an undefined stream id is taken to match no stored event. That is the call every loaded account makes, because `toDomain` leaves `versionedId` unset. The model does not reproduce how the Mongo driver serialises `undefined` in a filter.
- `bankAccount.versionedId` before the factory or the mapper assigns it, and `BankAccount`'s other fields before the first assignment, are modelled only for `balance` and `versionedId` (as `None`). The constructor takes id, number and owner, which every creation path sets immediately.
- `class BankAccount` in src/bank-account/domain/back-account.ts:7 extends nothing as written, although `findByNumber` calls `setVersion` on it (find-bank-account.repository.ts:41) and the handlers call `commit()` (make-deposit.command-handler.ts:36). The model assumes `BankAccount extends VersionedAggregateRoot`, so `Account.BankAccount` has a version field with `SetVersion` and a `Commit` that does nothing.
- Wiring and transport are not modelled: the modules, the controller and the service. The modules in the source register only the create handler and its repository, and the application module does not import the shared event-store module; the model treats the deposit and withdraw handlers as if they were registered. Neither are migrations, the data source, or the ORM repository behind `save`.

## Findings

| source | as written | input that shows it | evidently intended | confidence | as-written member | corrected member |
|---|---|---|---|---|---|---|
| src/bank-account/infrastructure/mapper/bank-account.mapper.ts:8-16 | `toDomain` assigns neither `balance` nor `versionedId`, and `findByNumber` returns that account. So `deposit` reads `this.balance.add` and `withdraw` reads `this.balance.money` of `undefined`, and every positive deposit or withdrawal on a stored account throws a TypeError (an amount <= 0 fails its own check first) | a stored row `{id "a", number "n", owner "Alice", balance 10000}` and a deposit of 10.00 BRL to number "n" | rebuild the balance from the balance column with `Balance.fromAmount` (default currency BRL), and set `versionedId` to the id so that the version comes from the account's stream | high (not executed) | Handlers.LoadedAccountsCannotMove | Mapper.RestoredRoundTrip |

