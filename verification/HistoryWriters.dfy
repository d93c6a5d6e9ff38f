// A bounded queue drained in batches by one writer thread (mavlink/recording.py).

module HistoryWriters {
  import opened Prelude

  datatype WriterError = WriterClosed | RecordingFailed | QueueFull

  /** One batch handed to the write callback, and whether it returned normally. */
  datatype Attempt<T> = Attempt(records: seq<T>, ok: bool)

  /** Where the writer thread stands: waiting, inside the callback, or past it. */
  datatype Stage = Idle | Writing | Settled(ok: bool)

  /** All records of the attempts, in order. */
  function Attempted<T>(attempts: seq<Attempt<T>>): seq<T> {
    if attempts == [] then [] else Attempted(attempts[..|attempts| - 1]) + attempts[|attempts| - 1].records
  }

  /** The records of the successful attempts, in order. */
  function Written<T>(attempts: seq<Attempt<T>>): seq<T> {
    if attempts == [] then []
    else
      var last := attempts[|attempts| - 1];
      if last.ok then Written(attempts[..|attempts| - 1]) + last.records else Written(attempts[..|attempts| - 1])
  }

  lemma AttemptedMore<T>(attempts: seq<Attempt<T>>, a: Attempt<T>)
    ensures Attempted(attempts + [a]) == Attempted(attempts) + a.records
    ensures Written(attempts + [a]) == if a.ok then Written(attempts) + a.records else Written(attempts)
  {
    assert (attempts + [a])[..|attempts|] == attempts;
  }

  /** While nothing has failed, what was written is what was attempted. */
  lemma {:induction false} AllWritten<T>(attempts: seq<Attempt<T>>)
    requires forall a :: a in attempts ==> a.ok
    ensures Written(attempts) == Attempted(attempts)
  {
    if attempts != [] {
      AllWritten(attempts[..|attempts| - 1]);
    }
  }

  class HistoryWriter<T> {
    const capacity: nat
    const batchSize: nat
    var queue: seq<T>
    var busy: bool
    var submitted: nat
    var processed: nat
    var persisted: nat
    var failedRecords: nat
    var batches: nat
    var closed: bool
    var failed: bool
    /** Everything ever accepted, the finished attempts, and the batch that is being written. */
    ghost var log: seq<T>
    ghost var attempts: seq<Attempt<T>>
    ghost var batch: seq<T>
    ghost var stage: Stage
    ghost var overflowed: bool

    /** The attempts as the counters see them once the callback has returned. */
    ghost function Settled(): seq<Attempt<T>>
      reads this
    {
      if stage.Settled? then attempts + [Attempt(batch, stage.ok)] else attempts
    }

    ghost predicate Valid()
      reads this
    {
      && capacity > 0 && batchSize > 0
      && log == Attempted(attempts) + batch + queue
      && |queue| <= capacity
      && submitted == |log|
      && processed == |Attempted(attempts)|
      && persisted == |Written(Settled())|
      && persisted + failedRecords == |Attempted(Settled())|
      && batches == |attempts|
      && (forall a :: a in attempts ==> 0 < |a.records| <= batchSize)
      && (busy <==> stage != Idle)
      && (busy <==> batch != []) && |batch| <= batchSize
      && (failed <==> overflowed || exists a :: a in Settled() && !a.ok)
    }

    constructor (capacity: nat, batchSize: nat)
      requires capacity > 0 && batchSize > 0
      ensures Valid() && log == [] && !failed && !closed && stage == Idle
      ensures this.capacity == capacity && this.batchSize == batchSize
    {
      this.capacity, this.batchSize := capacity, batchSize;
      queue, busy, submitted, processed, persisted := [], false, 0, 0, 0;
      failedRecords, batches, closed, failed := 0, 0, false, false;
      log, attempts, batch, stage, overflowed := [], [], [], Idle, false;
    }

    /** Refuses limits that are not positive. */
    static method Create(capacity: nat, batchSize: nat) returns (w: HistoryWriter?<T>)
      ensures w != null <==> capacity > 0 && batchSize > 0
      ensures w != null ==> fresh(w) && w.Valid() && w.log == [] && w.capacity == capacity && w.batchSize == batchSize
    {
      if capacity == 0 || batchSize == 0 {
        return null;
      }
      w := new HistoryWriter(capacity, batchSize);
    }

    /** Queues a record. A full queue makes the recording fail for good. */
    method Submit(record: T) returns (r: Result<(), WriterError>)
      requires Valid()
      modifies this
      ensures Valid() && attempts == old(attempts) && batch == old(batch) && stage == old(stage) && closed == old(closed)
      ensures r == if old(closed) then Err(WriterClosed)
                   else if old(failed) then Err(RecordingFailed)
                   else if |old(queue)| >= capacity then Err(QueueFull)
                   else Ok(())
      ensures log == if r.Ok? then old(log) + [record] else old(log)
      ensures queue == if r.Ok? then old(queue) + [record] else old(queue)
      ensures failed == (old(failed) || r == Err(QueueFull))
    {
      hide Attempted, Written;
      if closed {
        return Err(WriterClosed);
      }
      if failed {
        return Err(RecordingFailed);
      }
      if |queue| >= capacity {
        failed := true;
        overflowed := true;
        return Err(QueueFull);
      }
      queue := queue + [record];
      submitted := submitted + 1;
      log := log + [record];
      assert log == Attempted(attempts) + batch + queue;
      return Ok(());
    }

    /** The writer thread wakes up with work to do and takes a batch off the front of the queue. */
    method TakeBatch() returns (records: seq<T>)
      requires Valid() && stage == Idle && queue != []
      modifies this
      ensures Valid() && stage == Writing && batch == records
      ensures |records| == if |old(queue)| < batchSize then |old(queue)| else batchSize
      ensures records + queue == old(queue) && records != []
      ensures log == old(log) && attempts == old(attempts) && failed == old(failed) && closed == old(closed)
    {
      hide Attempted, Written;
      var n := if |queue| < batchSize then |queue| else batchSize;
      records := [];
      ghost var all := queue;
      for i := 0 to n
        invariant records == all[..i] && queue == all[i..]
        invariant unchanged(`busy, `submitted, `processed, `persisted, `failedRecords, `batches, `closed, `failed,
                            `log, `attempts, `batch, `stage, `overflowed)
      {
        records := records + [queue[0]];
        queue := queue[1..];
      }
      busy := true;
      batch := records;
      stage := Writing;
      assert records + queue == all;
      assert Attempted(attempts) + [] + all == Attempted(attempts) + records + queue;
    }

    /** The callback returned, or raised. */
    method WriteReturned(records: seq<T>, ok: bool)
      requires Valid() && stage == Writing && records == batch
      modifies this
      ensures Valid() && stage == Stage.Settled(ok) && batch == old(batch)
      ensures failed == (old(failed) || !ok)
      ensures log == old(log) && attempts == old(attempts) && queue == old(queue) && closed == old(closed)
      ensures persisted == old(persisted) + (if ok then |batch| else 0)
      ensures failedRecords == old(failedRecords) + (if ok then 0 else |batch|)
    {
      hide Attempted, Written;
      AttemptedMore(attempts, Attempt(batch, ok));
      assert Attempt(batch, ok) in attempts + [Attempt(batch, ok)];
      if ok {
        persisted := persisted + |records|;
      } else {
        failed := true;
        failedRecords := failedRecords + |records|;
      }
      stage := Stage.Settled(ok);
    }

    /** The last section of a round: the batch counts as processed, whatever became of it. */
    method FinishBatch(records: seq<T>)
      requires Valid() && stage.Settled? && records == batch
      modifies this
      ensures Valid() && stage == Idle && batch == []
      ensures attempts == old(attempts) + [Attempt(old(batch), old(stage).ok)]
      ensures log == old(log) && queue == old(queue) && failed == old(failed) && closed == old(closed)
      ensures processed == old(processed) + |old(batch)|
    {
      hide Attempted, Written;
      AttemptedMore(attempts, Attempt(batch, stage.ok));
      processed := processed + |records|;
      batches := batches + 1;
      busy := false;
      attempts := attempts + [Attempt(batch, stage.ok)];
      batch := [];
      stage := Idle;
      assert log == Attempted(attempts) + [] + queue;
    }

    /** What a flush waits for. */
    method FlushBegin() returns (boundary: nat)
      requires Valid()
      ensures boundary == |log|
    {
      return submitted;
    }

    /**
     * The end of a flush whose wait succeeded: without an error, everything that had been submitted
     * when the flush began was written, in order.
     */
    method FlushEnd(boundary: nat) returns (r: Result<(), WriterError>)
      requires Valid() && processed >= boundary
      ensures r == if failed then Err(RecordingFailed) else Ok(())
      ensures r.Ok? ==> boundary <= |Written(attempts)| && Written(attempts)[..boundary] == log[..boundary]
    {
      if failed {
        return Err(RecordingFailed);
      }
      NothingFailed();
      return Ok(());
    }

    lemma NothingFailed()
      requires Valid() && !failed
      ensures Written(attempts) == Attempted(attempts) <= log
    {
      forall a | a in attempts ensures a.ok {
        assert a in Settled();
      }
      AllWritten(attempts);
      hide Attempted, Written;
      assert log == Attempted(attempts) + (batch + queue);
    }

    method CloseBegin()
      requires Valid()
      modifies `closed
      ensures Valid() && closed
    {
      closed := true;
    }

    /** The end of a close, after the writer thread ended: either an error, or nothing is missing. */
    method CloseEnd() returns (r: Result<(), WriterError>)
      requires Valid() && closed && stage == Idle && queue == []
      ensures r == if failed then Err(RecordingFailed) else Ok(())
      ensures r.Ok? ==> Written(attempts) == log
    {
      assert Attempted(attempts) + [] + [] == Attempted(attempts);
      r := FlushEnd(submitted);
      if r.Ok? {
        NothingFailed();
      }
    }
  }
}
