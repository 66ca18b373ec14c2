/** `MongoEventStore` over an in-memory log. The unique index on `(streamId, position)` that the
    event schema declares is the invariant `UniqueKeys` of the log. */
module EventStore {
  import opened Wrappers
  import opened Errors

  /** The error code of a unique-index violation. */
  const DuplicateKeyCode: int := 11000

  datatype StoredEvent = StoredEvent(streamId: string, position: int, payload: string)

  /** `persist` accepts one event or an array of events. */
  datatype EventOrEvents = One(event: StoredEvent) | Many(events: seq<StoredEvent>)

  predicate SameKey(e: StoredEvent, f: StoredEvent) {
    e.streamId == f.streamId && e.position == f.position
  }

  /** No two events of the log share a stream and a position. */
  predicate UniqueKeys(log: seq<StoredEvent>) {
    forall i, j :: 0 <= i < j < |log| ==> !SameKey(log[i], log[j])
  }

  /** Some event of `log` has the stream and position of `e`. */
  predicate KeyTaken(log: seq<StoredEvent>, e: StoredEvent) {
    exists j :: 0 <= j < |log| && SameKey(log[j], e)
  }

  /** `Array.isArray(eventOrEvents) ? eventOrEvents : [eventOrEvents]` */
  function AsBatch(x: EventOrEvents): (r: seq<StoredEvent>)
    ensures x.One? ==> r == [x.event]
    ensures x.Many? ==> r == x.events
  {
    match x
    case One(e) => [e]
    case Many(es) => es
  }

  /** `insertMany(events, { ordered: true })` inside the transaction: the events are staged one
      by one and the first one whose key is taken (by the log or by an earlier event of the
      batch) stops the insertion with the duplicate-key code. */
  method InsertMany(log: seq<StoredEvent>, batch: seq<StoredEvent>) returns (r: Result<seq<StoredEvent>, int>)
    requires UniqueKeys(log)
    ensures r.Success? <==> UniqueKeys(log + batch)
    ensures r.Success? ==> r.value == log + batch
    ensures r.Failure? ==> r.error == DuplicateKeyCode
  {
    var staged := log;
    var i := 0;
    while i < |batch|
      invariant 0 <= i <= |batch|
      invariant staged == log + batch[..i]
      invariant UniqueKeys(staged)
    {
      if j :| 0 <= j < |staged| && SameKey(staged[j], batch[i]) {
        assert (log + batch)[j] == staged[j] && (log + batch)[|log| + i] == batch[i];
        return Failure(DuplicateKeyCode);
      }
      staged := staged + [batch[i]];
      i := i + 1;
    }
    assert batch[..i] == batch;
    r := Success(staged);
  }

  /** The log after `persist(batch)`: all of the batch or none of it. */
  function Appended(log: seq<StoredEvent>, batch: seq<StoredEvent>, fault: Option<DriverFault>): (r: seq<StoredEvent>)
    requires UniqueKeys(log)
    ensures UniqueKeys(r)
    ensures r == log || r == log + batch
    ensures r == log + batch <==> (UniqueKeys(log + batch) && fault.None?) || batch == []
  {
    if UniqueKeys(log + batch) && fault.None? then log + batch else log
  }

  /** A batch that reuses a key already in the log changes nothing, whatever the driver does:
      this is how a stale aggregate loses the race. */
  lemma StaleBatchRejected(log: seq<StoredEvent>, batch: seq<StoredEvent>, fault: Option<DriverFault>, k: nat)
    requires UniqueKeys(log)
    requires k < |batch| && KeyTaken(log, batch[k])
    ensures Appended(log, batch, fault) == log
  {
    var j :| 0 <= j < |log| && SameKey(log[j], batch[k]);
    assert (log + batch)[j] == log[j] && (log + batch)[|log| + k] == batch[k];
  }

  /** Of two batches that claim one key, only the first to be persisted is stored; the second
      leaves the log as the first left it. */
  lemma RacingBatchesOneWins(log: seq<StoredEvent>, first: seq<StoredEvent>, second: seq<StoredEvent>,
                             fault: Option<DriverFault>, i: nat, k: nat)
    requires UniqueKeys(log) && UniqueKeys(log + first)
    requires i < |first| && k < |second| && SameKey(first[i], second[k])
    ensures Appended(log, first, None) == log + first
    ensures Appended(log + first, second, fault) == log + first
  {
    assert (log + first)[|log| + i] == first[i];
    StaleBatchRejected(log + first, second, fault, k);
  }

  /** Persisting a non-empty batch a second time changes nothing: retrying is idempotent. */
  lemma PersistTwiceIsOnce(log: seq<StoredEvent>, batch: seq<StoredEvent>, fault: Option<DriverFault>)
    requires UniqueKeys(log) && batch != []
    ensures Appended(Appended(log, batch, None), batch, fault) == Appended(log, batch, None)
  {
    if UniqueKeys(log + batch) {
      assert (log + batch)[|log|] == batch[0];
      StaleBatchRejected(log + batch, batch, fault, 0);
    }
  }

  /** The event belongs to the stream; an undefined stream id matches no event. */
  predicate InStream(e: StoredEvent, streamId: Option<string>) {
    streamId == Some(e.streamId)
  }

  predicate HasStream(log: seq<StoredEvent>, streamId: Option<string>) {
    exists i :: 0 <= i < |log| && InStream(log[i], streamId)
  }

  /** The position of the newest event of the stream, or 0 for an empty stream: what
      `findOne({ streamId }).sort({ position: -1 })` yields. */
  function LastVersion(log: seq<StoredEvent>, streamId: Option<string>): (r: int)
    ensures forall i :: 0 <= i < |log| && InStream(log[i], streamId) ==> log[i].position <= r
    ensures HasStream(log, streamId) ==> exists i :: 0 <= i < |log| && InStream(log[i], streamId) && log[i].position == r
    ensures !HasStream(log, streamId) ==> r == 0
  {
    if log == [] then 0
    else
      var rest := LastVersion(log[1..], streamId);
      assert forall i :: 1 <= i < |log| ==> log[i] == log[1..][i - 1];
      if !InStream(log[0], streamId) then
        assert HasStream(log, streamId) ==> HasStream(log[1..], streamId) by {
          if HasStream(log, streamId) {
            var i :| 0 <= i < |log| && InStream(log[i], streamId);
            assert InStream(log[1..][i - 1], streamId);
          }
        }
        rest
      else if HasStream(log[1..], streamId) && rest >= log[0].position then
        var i :| 0 <= i < |log[1..]| && InStream(log[1..][i], streamId) && log[1..][i].position == rest;
        assert log[i + 1] == log[1..][i];
        rest
      else
        log[0].position
  }

  /** Events of other streams do not move a stream's last version. */
  lemma {:induction false} LastVersionOtherStream(log: seq<StoredEvent>, e: StoredEvent, streamId: Option<string>)
    requires !InStream(e, streamId)
    ensures LastVersion(log + [e], streamId) == LastVersion(log, streamId)
  {
    if log != [] {
      var tail := log[1..];
      assert (log + [e])[1..] == tail + [e] && (log + [e])[0] == log[0];
      LastVersionOtherStream(tail, e, streamId);
      assert HasStream(tail + [e], streamId) == HasStream(tail, streamId) by {
        if HasStream(tail + [e], streamId) {
          var i :| 0 <= i < |tail + [e]| && InStream((tail + [e])[i], streamId);
          assert i < |tail| && (tail + [e])[i] == tail[i];
        }
        if HasStream(tail, streamId) {
          var i :| 0 <= i < |tail| && InStream(tail[i], streamId);
          assert (tail + [e])[i] == tail[i];
        }
      }
    } else {
      assert [e][1..] == [];
    }
  }

  /** An event appended past the newest position of its stream becomes the stream's last version. */
  lemma LastVersionAfterNext(log: seq<StoredEvent>, e: StoredEvent)
    requires e.position > LastVersion(log, Some(e.streamId))
    ensures LastVersion(log + [e], Some(e.streamId)) == e.position
  {
    var s := Some(e.streamId);
    var all := log + [e];
    assert all[|log|] == e;
    var r := LastVersion(all, s);
    assert HasStream(all, s);
    assert forall i :: 0 <= i < |log| ==> all[i] == log[i];
  }

  class EventStore {
    var log: seq<StoredEvent>

    ghost predicate Valid()
      reads this
    {
      UniqueKeys(log)
    }

    constructor ()
      ensures Valid() && log == []
    {
      log := [];
    }

    /** `persist(eventOrEvents)`: the batch is stored whole or not at all. A duplicate key aborts
        the transaction and is swallowed; any other failure aborts it and is rethrown. `fault`
        is a failure the driver reports instead of the insert's own outcome (a lost connection,
        a failed commit); it wins over a duplicate key the batch would also have met. */
    method Persist(eventOrEvents: EventOrEvents, fault: Option<DriverFault>) returns (r: Outcome<Error>)
      requires Valid()
      modifies this
      ensures Valid()
      ensures log == Appended(old(log), AsBatch(eventOrEvents), fault)
      ensures r.Fail? <==> fault.Some? && fault.value.code != DuplicateKeyCode
      ensures r.Fail? ==> r.error == StorageFailure(fault.value)
    {
      var events := AsBatch(eventOrEvents);
      var staged := InsertMany(log, events);
      var failure: Option<DriverFault>;
      if fault.Some? {
        failure := fault;
      } else if staged.Failure? {
        failure := Some(DriverFault(staged.error, "E11000 duplicate key error"));
      } else {
        failure := None;
      }
      if failure.None? {
        log := staged.value;  // commitTransaction
        return Pass;
      }
      // abortTransaction: nothing staged reaches the log
      if failure.value.code == DuplicateKeyCode {
        r := Pass;  // logged as a stale aggregate, never signalled to the caller
      } else {
        r := Fail(StorageFailure(failure.value));
      }
    }

    /** `getLastVersion(streamId)` */
    method GetLastVersion(streamId: Option<string>) returns (v: int)
      ensures v == LastVersion(log, streamId)
    {
      v := LastVersion(log, streamId);
    }
  }
}
