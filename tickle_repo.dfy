/**
 * The tickle repository: datasets, the batches that pass over them and the
 * records they hold, with the mark-sweep protocol that finds the records a
 * full resynchronisation no longer delivers.
 */
module TickleRepository {
  import opened Wrappers
  import opened Postgres
  import opened Queries
  import opened RecordDto
  import opened BatchDto
  import opened DataSetDto

  // The record statements below are the semantics of the named queries
  // Record.MARK_QUERY_NAME, SWEEP_QUERY_NAME, UNDO_MARK_QUERY_NAME,
  // GET_RECORDS_IN_BATCH_QUERY_NAME and GET_RECORD_BY_LOCALID_QUERY_NAME.
  // Each bulk update is defined row by row.

  /** An ACTIVE record of `dataset`: what a mark turns RESET. */
  predicate ActiveIn(r: RecordRow, dataset: int) {
    r.dataset == dataset && r.status == Some(ACTIVE)
  }

  /** A RESET record of `dataset`: what a sweep deletes and an undo-mark reactivates. */
  predicate ResetIn(r: RecordRow, dataset: int) {
    r.dataset == dataset && r.status == Some(RESET)
  }

  /** No record of `dataset` is RESET: no resynchronisation of it is in progress. */
  predicate NoResetIn(records: seq<RecordRow>, dataset: int) {
    forall i :: 0 <= i < |records| ==> !ResetIn(records[i], dataset)
  }

  /** mark: every ACTIVE record of the dataset becomes RESET; no other row changes. */
  function Mark(records: seq<RecordRow>, dataset: int): (r: seq<RecordRow>)
    ensures |r| == |records|
    ensures forall i :: 0 <= i < |records| && ActiveIn(records[i], dataset) ==>
              r[i] == records[i].(status := Some(RESET))
    ensures forall i :: 0 <= i < |records| && !ActiveIn(records[i], dataset) ==> r[i] == records[i]
    ensures forall i :: 0 <= i < |r| ==> !ActiveIn(r[i], dataset)
  {
    if records == [] then []
    else
      var row := records[0];
      [if ActiveIn(row, dataset) then row.(status := Some(RESET)) else row] + Mark(records[1..], dataset)
  }

  /**
   * sweep: every RESET record of the dataset becomes DELETED, points at the
   * closing batch and is stamped `now`; no other row changes.
   */
  function Sweep(records: seq<RecordRow>, dataset: int, batchId: int, now: Timestamp): (r: seq<RecordRow>)
    ensures |r| == |records|
    ensures forall i :: 0 <= i < |records| && ResetIn(records[i], dataset) ==>
              r[i] == records[i].(status := Some(DELETED), batch := batchId, timeOfLastModification := Some(now))
    ensures forall i :: 0 <= i < |records| && !ResetIn(records[i], dataset) ==> r[i] == records[i]
    ensures NoResetIn(r, dataset)
  {
    if records == [] then []
    else
      var row := records[0];
      [if ResetIn(row, dataset)
       then row.(status := Some(DELETED), batch := batchId, timeOfLastModification := Some(now))
       else row] + Sweep(records[1..], dataset, batchId, now)
  }

  /** undo-mark: every RESET record of the dataset is ACTIVE again, batch pointer untouched. */
  function UndoMark(records: seq<RecordRow>, dataset: int): (r: seq<RecordRow>)
    ensures |r| == |records|
    ensures forall i :: 0 <= i < |records| && ResetIn(records[i], dataset) ==>
              r[i] == records[i].(status := Some(ACTIVE))
    ensures forall i :: 0 <= i < |records| && !ResetIn(records[i], dataset) ==> r[i] == records[i]
    ensures NoResetIn(r, dataset)
  {
    if records == [] then []
    else
      var row := records[0];
      [if ResetIn(row, dataset) then row.(status := Some(ACTIVE)) else row] + UndoMark(records[1..], dataset)
  }

  /** The records whose batch pointer is `batchId`, in table (ascending id) order. */
  function RecordsInBatchQuery(records: seq<RecordRow>, batchId: int): (r: seq<RecordRow>)
    ensures forall x :: x in r <==> x in records && x.batch == batchId
    ensures Ascending(records, RecordId) ==> Ascending(r, RecordId)
  {
    var p := (x: RecordRow) => x.batch == batchId;
    FilterAscending(records, p, RecordId);
    Filter(records, p)
  }

  /** The record of `dataset` with local id `localId`. */
  function RecordByLocalIdQuery(records: seq<RecordRow>, dataset: int, localId: string): (r: seq<RecordRow>)
    ensures forall x :: x in r <==> x in records && x.dataset == dataset && x.localId == Some(localId)
  {
    Filter(records, (x: RecordRow) => x.dataset == dataset && x.localId == Some(localId))
  }

  /** A sweep over a dataset with nothing RESET changes nothing. */
  lemma SweepWithoutResetIsNoOp(records: seq<RecordRow>, dataset: int, batchId: int, now: Timestamp)
    requires NoResetIn(records, dataset)
    ensures Sweep(records, dataset, batchId, now) == records
  {
  }

  /**
   * Aborting a TOTAL batch right after creating it leaves the records exactly as
   * they were, provided no earlier resynchronisation of the dataset was in progress.
   */
  lemma AbortUndoesMark(records: seq<RecordRow>, dataset: int)
    requires NoResetIn(records, dataset)
    ensures UndoMark(Mark(records, dataset), dataset) == records
  {
  }

  /**
   * A TOTAL batch created and closed with no record reconfirmed in between
   * deletes every record of the dataset that was ACTIVE or RESET, moves it to
   * the closing batch, and leaves every other row as it was.
   */
  lemma UnconfirmedRecordsAreDeleted(records: seq<RecordRow>, dataset: int, batchId: int, now: Timestamp)
    ensures var after := Sweep(Mark(records, dataset), dataset, batchId, now);
            |after| == |records| &&
            (forall i :: 0 <= i < |records| && (ActiveIn(records[i], dataset) || ResetIn(records[i], dataset)) ==>
              after[i] == records[i].(status := Some(DELETED), batch := batchId, timeOfLastModification := Some(now))) &&
            (forall i :: 0 <= i < |records| && !ActiveIn(records[i], dataset) && !ResetIn(records[i], dataset) ==>
              after[i] == records[i])
  {
  }

  /** Undoing a mark deletes nothing and undeletes nothing. */
  lemma UndoMarkKeepsDeletions(records: seq<RecordRow>, dataset: int)
    ensures forall i :: 0 <= i < |records| ==>
              (UndoMark(records, dataset)[i].status == Some(DELETED) <==> records[i].status == Some(DELETED))
  {
  }

  /** What the sequences behind the three tables keep true: ids ascending, positive and below their sequence. */
  ghost predicate Consistent(datasets: seq<DataSetRow>, batches: seq<BatchRow>, records: seq<RecordRow>,
                             nextDataSetId: int, nextBatchId: int)
  {
    Ascending(datasets, DataSetId) && Ascending(batches, BatchId) && Ascending(records, RecordId) &&
    0 < nextDataSetId && 0 < nextBatchId &&
    (forall d :: d in datasets ==> 0 < d.id < nextDataSetId) &&
    (forall b :: b in batches ==> 0 < b.id < nextBatchId) &&
    (forall x :: x in records ==> 0 < x.id)
  }

  /** The position of the batch with id `id`. */
  function IndexOfBatch(batches: seq<BatchRow>, id: int): (k: nat)
    requires exists b :: b in batches && b.id == id
    ensures k < |batches| && batches[k].id == id
  {
    if batches[0].id == id then 0 else 1 + IndexOfBatch(batches[1..], id)
  }

  /** Appending a row with a larger key than all others keeps a table in key order. */
  lemma AppendAscending<T(!new)>(s: seq<T>, x: T, key: T -> int)
    requires Ascending(s, key)
    requires forall y :: y in s ==> key(y) < key(x)
    ensures Ascending(s + [x], key)
  {
    var t := s + [x];
    forall i, j | 0 <= i < j < |t| ensures key(t[i]) < key(t[j]) {
      if j == |s| {
        assert t[i] in s;
      }
    }
  }

  /** The repository over one store: its three tables and two id sequences. */
  class TickleRepo {
    var datasets: seq<DataSetRow>
    var batches: seq<BatchRow>
    var records: seq<RecordRow>
    /** The next value of dataset_id_seq. */
    var nextDataSetId: int
    /** The next value of batch_id_seq. */
    var nextBatchId: int

    ghost predicate Valid()
      reads this
    {
      Consistent(datasets, batches, records, nextDataSetId, nextBatchId)
    }

    /** A repository over a store in the given state. */
    constructor (datasets: seq<DataSetRow>, batches: seq<BatchRow>, records: seq<RecordRow>,
                 nextDataSetId: int, nextBatchId: int)
      requires Consistent(datasets, batches, records, nextDataSetId, nextBatchId)
      ensures Valid()
      ensures this.datasets == datasets && this.batches == batches && this.records == records
      ensures this.nextDataSetId == nextDataSetId && this.nextBatchId == nextBatchId
    {
      this.datasets := datasets;
      this.batches := batches;
      this.records := records;
      this.nextDataSetId := nextDataSetId;
      this.nextBatchId := nextBatchId;
    }

    /**
     * createBatch: stores the batch under the next generated id, stamped with
     * its creation time, and for a TOTAL batch marks the dataset's records.
     */
    method CreateBatch(batch: Batch, now: Timestamp) returns (r: Batch)
      requires Valid()
      modifies this, batch
      ensures Valid()
      ensures r == batch
      ensures batch.Row() == old(batch.Row()).(id := old(nextBatchId), timeOfCreation := Some(now))
      ensures batches == old(batches) + [batch.Row()]
      ensures nextBatchId == old(nextBatchId) + 1
      ensures records == if old(batch.batchType) == Some(TOTAL) then Mark(old(records), old(batch.dataset))
                         else old(records)
      ensures datasets == old(datasets) && nextDataSetId == old(nextDataSetId)
    {
      // persist takes the id from batch_id_seq; refresh reads back the defaulted creation time.
      batch.id := nextBatchId;
      batch.timeOfCreation := Some(now);
      AppendAscending(batches, batch.Row(), BatchId);
      batches := batches + [batch.Row()];
      nextBatchId := nextBatchId + 1;
      if batch.batchType == Some(TOTAL) {
        records := Mark(records, batch.dataset);
      }
      r := batch;
    }

    /**
     * closeBatch: merges the batch into its stored row (whose creation time is
     * not updatable), sweeps the dataset for a TOTAL batch, and sets the
     * completion time.
     */
    method CloseBatch(batch: Batch, now: Timestamp)
      requires Valid()
      requires exists b :: b in batches && b.id == batch.id
      modifies this, batch
      ensures Valid()
      ensures batch.Row() == old(batch.Row()).(timeOfCompletion := Some(now))
      ensures |batches| == |old(batches)|
      ensures forall i :: 0 <= i < |batches| ==>
                batches[i] == if old(batches[i]).id == batch.id
                              then batch.Row().(timeOfCreation := old(batches[i]).timeOfCreation)
                              else old(batches[i])
      ensures forall i :: 0 <= i < |batches| && old(batches[i]).timeOfCompletion.Some? ==>
                batches[i].timeOfCompletion.Some?
      ensures records == if old(batch.batchType) == Some(TOTAL)
                         then Sweep(old(records), old(batch.dataset), old(batch.id), now)
                         else old(records)
      ensures NoResetIn(records, old(batch.dataset)) || old(batch.batchType) != Some(TOTAL)
      ensures datasets == old(datasets) && nextDataSetId == old(nextDataSetId) && nextBatchId == old(nextBatchId)
    {
      var k := IndexOfBatch(batches, batch.id);
      if batch.batchType == Some(TOTAL) {
        records := Sweep(records, batch.dataset, batch.id, now);
      }
      batch.timeOfCompletion := Some(now);
      var stored := batch.Row().(timeOfCreation := batches[k].timeOfCreation);
      forall i | 0 <= i < |batches| && i != k ensures batches[i].id != batch.id {
        assert BatchId(batches[i]) != BatchId(batches[k]);
      }
      batches := batches[k := stored];
      assert forall i :: 0 <= i < |batches| ==> batches[i].id == old(batches[i]).id;
    }

    /**
     * abortBatch: for a TOTAL batch, returns the dataset's RESET records to
     * ACTIVE, then closes the batch. The close then sweeps nothing.
     */
    method AbortBatch(batch: Batch, now: Timestamp)
      requires Valid()
      requires exists b :: b in batches && b.id == batch.id
      modifies this, batch
      ensures Valid()
      ensures batch.Row() == old(batch.Row()).(timeOfCompletion := Some(now))
      ensures |batches| == |old(batches)|
      ensures forall i :: 0 <= i < |batches| ==>
                batches[i] == if old(batches[i]).id == batch.id
                              then batch.Row().(timeOfCreation := old(batches[i]).timeOfCreation)
                              else old(batches[i])
      ensures records == if old(batch.batchType) == Some(TOTAL) then UndoMark(old(records), old(batch.dataset))
                         else old(records)
      ensures |records| == |old(records)|
      ensures forall i :: 0 <= i < |records| ==>
                (records[i].status == Some(DELETED) <==> old(records[i]).status == Some(DELETED))
      ensures forall i :: 0 <= i < |records| ==> records[i].batch == old(records[i]).batch
      ensures datasets == old(datasets) && nextDataSetId == old(nextDataSetId) && nextBatchId == old(nextBatchId)
    {
      if batch.batchType == Some(TOTAL) {
        UndoMarkKeepsDeletions(records, batch.dataset);
        records := UndoMark(records, batch.dataset);
        SweepWithoutResetIsNoOp(records, batch.dataset, batch.id, now);
      }
      CloseBatch(batch, now);
    }

    /**
     * getNextBatch: takes the lowest-id batch of the same dataset after
     * `lastSeen` and returns it only if it is completed. An open batch there
     * hides every later completed one.
     */
    function GetNextBatch(lastSeen: Batch): (r: Option<BatchRow>)
      reads this, lastSeen
      requires Valid()
      ensures r.Some? ==> r.value in batches && r.value.dataset == lastSeen.dataset &&
                          r.value.id > lastSeen.id && r.value.timeOfCompletion.Some?
      ensures r.Some? ==> forall b :: b in batches && b.dataset == lastSeen.dataset && b.id > lastSeen.id ==>
                            r.value.id <= b.id
      ensures r.None? ==> forall b :: (b in batches && b.dataset == lastSeen.dataset && b.id > lastSeen.id &&
                                       b.timeOfCompletion.Some?) ==>
                            exists o :: o in batches && o.dataset == lastSeen.dataset && o.id > lastSeen.id &&
                                        o.timeOfCompletion.None? && o.id < b.id
    {
      var later := NextBatchQuery(batches, lastSeen.id, lastSeen.dataset);
      var first := First(later);    // setMaxResults(1)
      if later != [] then FirstIsLeast(later, BatchId); Filtered(first)
      else Filtered(first)
    }

    /** The completion filter applied after the limit. */
    static function Filtered(first: Option<BatchRow>): (r: Option<BatchRow>)
      ensures r.Some? <==> first.Some? && first.value.timeOfCompletion.Some?
      ensures r.Some? ==> r == first
    {
      if first.Some? && first.value.timeOfCompletion.Some? then first else None
    }

    /** entityManager.find by primary key. */
    function FindBatch(id: int): (r: Option<BatchRow>)
      reads this
      ensures r.Some? <==> exists b :: b in batches && b.id == id
      ensures r.Some? ==> r.value in batches && r.value.id == id
    {
      First(Filter(batches, (b: BatchRow) => b.id == id))
    }

    /** entityManager.find by primary key. */
    function FindRecord(id: int): (r: Option<RecordRow>)
      reads this
      ensures r.Some? <==> exists x :: x in records && x.id == id
      ensures r.Some? ==> r.value in records && r.value.id == id
    {
      First(Filter(records, (x: RecordRow) => x.id == id))
    }

    /** entityManager.find by primary key. */
    function FindDataSet(id: int): (r: Option<DataSetRow>)
      reads this
      ensures r.Some? <==> exists d :: d in datasets && d.id == id
      ensures r.Some? ==> r.value in datasets && r.value.id == id
    {
      First(Filter(datasets, (d: DataSetRow) => d.id == id))
    }

    /**
     * lookupBatch: nothing for null; by id when the id is positive; otherwise
     * by batch key when the key is positive; otherwise nothing.
     */
    function LookupBatch(value: Batch?): (r: Option<BatchRow>)
      reads this, value
      ensures value == null ==> r.None?
      ensures value != null && value.id > 0 ==>
                (r.Some? <==> exists b :: b in batches && b.id == value.id) &&
                (r.Some? ==> r.value in batches && r.value.id == value.id)
      ensures value != null && value.id <= 0 && value.batchKey > 0 ==>
                (r.Some? <==> exists b :: b in batches && b.batchKey == value.batchKey) &&
                (r.Some? ==> r.value in batches && r.value.batchKey == value.batchKey)
      ensures value != null && value.id <= 0 && value.batchKey <= 0 ==> r.None?
    {
      if value == null then None
      else if value.id > 0 then FindBatch(value.id)
      else if value.batchKey > 0 then First(BatchByKeyQuery(batches, value.batchKey))
      else None
    }

    /**
     * lookupRecord: nothing for null; by id when the id is positive; otherwise
     * by (dataset, localId) when the local id is set and the dataset positive;
     * otherwise nothing.
     */
    function LookupRecord(value: Record?): (r: Option<RecordRow>)
      reads this, value
      ensures value == null ==> r.None?
      ensures value != null && value.id > 0 ==>
                (r.Some? <==> exists x :: x in records && x.id == value.id) &&
                (r.Some? ==> r.value in records && r.value.id == value.id)
      ensures value != null && value.id <= 0 && value.localId.Some? && value.dataset > 0 ==>
                (r.Some? <==> exists x :: x in records && x.dataset == value.dataset && x.localId == value.localId) &&
                (r.Some? ==> r.value in records && r.value.dataset == value.dataset && r.value.localId == value.localId)
      ensures value != null && value.id <= 0 && (value.localId.None? || value.dataset <= 0) ==> r.None?
    {
      if value == null then None
      else if value.id > 0 then FindRecord(value.id)
      else if value.localId.Some? && value.dataset > 0 then
        First(RecordByLocalIdQuery(records, value.dataset, value.localId.value))
      else None
    }

    /**
     * lookupDataSet: nothing for null; by id when the id is positive; otherwise
     * by name when the name is set; otherwise nothing.
     */
    function LookupDataSet(dataset: DataSet?): (r: Option<DataSetRow>)
      reads this, dataset
      ensures dataset == null ==> r.None?
      ensures dataset != null && dataset.id > 0 ==>
                (r.Some? <==> exists d :: d in datasets && d.id == dataset.id) &&
                (r.Some? ==> r.value in datasets && r.value.id == dataset.id)
      ensures dataset != null && dataset.id <= 0 && dataset.name.Some? ==>
                (r.Some? <==> exists d :: d in datasets && d.name == dataset.name) &&
                (r.Some? ==> r.value in datasets && r.value.name == dataset.name)
      ensures dataset != null && dataset.id <= 0 && dataset.name.None? ==> r.None?
    {
      if dataset == null then None
      else if dataset.id > 0 then FindDataSet(dataset.id)
      else if dataset.name.Some? then First(DataSetByNameQuery(datasets, dataset.name.value))
      else None
    }

    /** createDataSet: stores the dataset under the next generated id. */
    method CreateDataSet(dataSet: DataSet) returns (r: DataSet)
      requires Valid()
      modifies this, dataSet
      ensures Valid()
      ensures r == dataSet
      ensures dataSet.Row() == old(dataSet.Row()).(id := old(nextDataSetId))
      ensures datasets == old(datasets) + [dataSet.Row()]
      ensures nextDataSetId == old(nextDataSetId) + 1
      ensures batches == old(batches) && records == old(records) && nextBatchId == old(nextBatchId)
    {
      dataSet.id := nextDataSetId;
      AppendAscending(datasets, dataSet.Row(), DataSetId);
      datasets := datasets + [dataSet.Row()];
      nextDataSetId := nextDataSetId + 1;
      r := dataSet;
    }

    /**
     * getRecordsInBatch: a fresh one-shot cursor over the records whose batch
     * pointer is this batch's id, each once, by ascending id.
     */
    method GetRecordsInBatch(batch: Batch) returns (rs: ResultSet)
      requires Valid()
      ensures fresh(rs) && rs.Valid()
      ensures rs.rows == RecordsInBatchQuery(records, batch.id)
      ensures forall x :: x in rs.rows <==> x in records && x.batch == batch.id
      ensures Ascending(rs.rows, RecordId)
      ensures rs.position == 0 && !rs.released
    {
      rs := new ResultSet(RecordsInBatchQuery(records, batch.id));
    }
  }

  /** The number of rows a CursoredStream fetches per page, and how often it is cleared. */
  const BufferSize: nat := 50

  /** How many rows the cursor holds after `position` rows were read through next(). */
  function HeldAfter(position: nat): nat {
    if position == 0 then 0 else (position - 1) % BufferSize + 1
  }

  /**
   * A one-time, forward-only iteration over query rows. next() clears the
   * cursor's buffer whenever the position is a multiple of the buffer size.
   */
  class ResultSet {
    /** The rows the query produced, in query order. */
    const rows: seq<RecordRow>
    /** cursor.getPosition(): how many rows next() has returned. */
    var position: nat
    /** The rows the cursor retains since its last clear(). */
    var buffer: seq<RecordRow>
    /** Whether close() has released the cursor. */
    var released: bool

    ghost predicate Valid()
      reads this
    {
      position <= |rows| && |buffer| == HeldAfter(position) &&
      |buffer| <= position && buffer == rows[position - |buffer|..position]
    }

    constructor (rows: seq<RecordRow>)
      ensures Valid()
      ensures this.rows == rows && position == 0 && buffer == [] && !released
    {
      this.rows := rows;
      position := 0;
      buffer := [];
      released := false;
    }

    /** hasNext(): some row has not been returned yet; only an open cursor can be asked. */
    function HasNext(): (b: bool)
      reads this
      requires Valid() && !released
      ensures b <==> position < |rows|
    {
      position < |rows|
    }

    /**
     * next(): returns the next row, first clearing the buffer when the position
     * is a multiple of the buffer size; the buffer never holds more rows than that.
     * A closed cursor cannot be read.
     */
    method Next() returns (row: RecordRow)
      requires Valid() && !released && HasNext()
      modifies this
      ensures Valid()
      ensures row == rows[old(position)] && position == old(position) + 1
      ensures buffer == if old(position) % BufferSize == 0 then [row] else old(buffer) + [row]
      ensures 0 < |buffer| <= BufferSize
      ensures released == old(released)
    {
      if position % BufferSize == 0 {
        buffer := [];
      }
      row := rows[position];
      buffer := buffer + [row];
      position := position + 1;
    }

    /** close(): releases the cursor. */
    method Close()
      modifies this
      ensures released
      ensures position == old(position) && buffer == old(buffer)
    {
      released := true;
    }
  }

  /**
   * A for-each loop over a ResultSet inside try-with-resources: returns every
   * row not yet read, in order, and closes the cursor.
   */
  method ReadAll(rs: ResultSet) returns (all: seq<RecordRow>)
    requires rs.Valid() && !rs.released
    modifies rs
    ensures all == rs.rows[old(rs.position)..]
    ensures rs.released && rs.position == |rs.rows|
  {
    all := [];
    while rs.HasNext()
      invariant rs.Valid() && !rs.released
      invariant old(rs.position) <= rs.position
      invariant all == rs.rows[old(rs.position)..rs.position]
      decreases |rs.rows| - rs.position
    {
      var row := rs.Next();
      all := all + [row];
    }
    rs.Close();
  }
}
