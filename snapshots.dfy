/** The snapshot (read-model) store behind the repository ports, as an in-memory table keyed by
    account number, and `OrmFindBankAccountRepository.findByNumber`. */
module Snapshots {
  import opened Wrappers
  import opened Errors
  import opened Account
  import opened Mapper
  import EventStore

  type Rows = map<string, BankAccountEntity>

  /** Every row is filed under its own account number. */
  ghost predicate FiledByNumber(rows: Rows) {
    forall n :: n in rows ==> rows[n].number == n
  }

  /** The account `findByNumber(number)` returns, as a value: the mapped row with the version of
      its stream attached, or `None` when no row has that number. */
  function Lookup(rows: Rows, log: seq<EventStore.StoredEvent>, number: string): Option<AccountState> {
    if number !in rows then None
    else
      var account := DomainOf(rows[number]);
      Some(account.(version := EventStore.LastVersion(log, account.versionedId)))
  }

  /** A found account is the mapped row: it has the number looked up, no balance, no stream id,
      and therefore version 0, whatever the event log holds. */
  lemma LookupAsWritten(rows: Rows, log: seq<EventStore.StoredEvent>, number: string)
    requires FiledByNumber(rows)
    ensures Lookup(rows, log, number).None? <==> number !in rows
    ensures Lookup(rows, log, number).Some? ==>
      var a := Lookup(rows, log, number).value;
      && a.number == number && a.id == rows[number].id
      && a.owner.name == rows[number].owner && a.owner.document == rows[number].owner
      && a.balance.None? && a.versionedId.None? && a.version == 0
  {
  }

  /** `findByNumber` with the restoring mapper: the version is the last position of the
      account's own stream. */
  function RestoredLookup(rows: Rows, log: seq<EventStore.StoredEvent>, number: string): Option<AccountState> {
    if number !in rows then None
    else
      var account := RestoredDomainOf(rows[number]);
      Some(account.(version := EventStore.LastVersion(log, account.versionedId)))
  }

  /** With the restoring mapper the attached version is the newest position of the stream named
      by the row's id, and 0 while that stream is empty. */
  lemma RestoredLookupVersion(rows: Rows, log: seq<EventStore.StoredEvent>, number: string)
    requires number in rows
    ensures var a := RestoredLookup(rows, log, number).value;
      var s := Some(rows[number].id);
      && a.versionedId == s
      && a.version == EventStore.LastVersion(log, s)
      && (forall i :: 0 <= i < |log| && EventStore.InStream(log[i], s) ==> log[i].position <= a.version)
      && (!EventStore.HasStream(log, s) ==> a.version == 0)
  {
  }

  class SnapshotStore {
    var rows: Rows
    /** Every row written, in order: one entry per successful `save` or `update`. */
    ghost var writes: seq<BankAccountEntity>

    ghost predicate Valid()
      reads this
    {
      FiledByNumber(rows)
    }

    constructor ()
      ensures Valid() && rows == map[] && writes == []
    {
      rows := map[];
      writes := [];
    }

    /** `findOne({ where: { number } })`: matches on the number column only. */
    method FindOne(number: string) returns (row: Option<BankAccountEntity>)
      requires Valid()
      ensures row.None? <==> number !in rows
      ensures row.Some? ==> row.value == rows[number] && row.value.number == number
    {
      if number in rows {
        row := Some(rows[number]);
      } else {
        row := None;
      }
    }

    /** Writes `toPersistence(account)` under its number, unless the account has no balance
        (a TypeError) or the driver fails with `fault`. */
    method Write(a: BankAccount, fault: Option<DriverFault>) returns (r: Outcome<Error>)
      requires Valid()
      modifies this
      ensures Valid()
      ensures var row := ToPersistence(a.State());
        && (r.Pass? <==> row.Success? && fault.None?)
        && (r.Fail? ==> r.error == if row.Failure? then row.error else StorageFailure(fault.value))
        && rows == (if r.Pass? then old(rows)[row.value.number := row.value] else old(rows))
        && writes == (if r.Pass? then old(writes) + [row.value] else old(writes))
    {
      var row := ToPersistence(a.State());
      if row.Failure? {
        return Fail(row.error);
      }
      if fault.Some? {
        return Fail(StorageFailure(fault.value));
      }
      rows := rows[row.value.number := row.value];
      writes := writes + [row.value];
      r := Pass;
    }

    /** `CreateBankAccountRepository.save(account)`. */
    method Save(a: BankAccount, fault: Option<DriverFault>) returns (r: Outcome<Error>)
      requires Valid()
      modifies this
      ensures Valid()
      ensures var row := ToPersistence(a.State());
        && (r.Pass? <==> row.Success? && fault.None?)
        && (r.Fail? ==> r.error == if row.Failure? then row.error else StorageFailure(fault.value))
        && rows == (if r.Pass? then old(rows)[row.value.number := row.value] else old(rows))
        && writes == (if r.Pass? then old(writes) + [row.value] else old(writes))
    {
      r := Write(a, fault);
    }

    /** `MakeDepositRepository.update(account)` / `MakeWithdrawRepository.update(account)`:
        the adapter returns the account it was given. */
    method Update(a: BankAccount, fault: Option<DriverFault>) returns (r: Result<BankAccount, Error>)
      requires Valid()
      modifies this
      ensures Valid()
      ensures var row := ToPersistence(a.State());
        && (r.Success? <==> row.Success? && fault.None?)
        && (r.Success? ==> r.value == a)
        && (r.Failure? ==> r.error == if row.Failure? then row.error else StorageFailure(fault.value))
        && rows == (if r.Success? then old(rows)[row.value.number := row.value] else old(rows))
        && writes == (if r.Success? then old(writes) + [row.value] else old(writes))
    {
      var written := Write(a, fault);
      if written.Fail? {
        return Failure(written.error);
      }
      r := Success(a);
    }
  }

  /** `findByNumber(number)`: looks the row up by number, maps it, asks the event store for the
      last version of the mapped account's stream and attaches it. It modifies neither store. */
  method FindByNumber(snapshots: SnapshotStore, events: EventStore.EventStore, number: string)
    returns (r: BankAccount?)
    requires snapshots.Valid()
    ensures r == null <==> Lookup(snapshots.rows, events.log, number).None?
    ensures r != null ==> fresh(r) && r.State() == Lookup(snapshots.rows, events.log, number).value
  {
    var row := snapshots.FindOne(number);
    if row.None? {
      return null;
    }
    var account := ToDomain(row.value);
    var lastVersion := events.GetLastVersion(account.versionedId);
    account.SetVersion(lastVersion);
    r := account;
  }
}
