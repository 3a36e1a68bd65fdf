/** The batch entity: one ingestion pass over a dataset, and the two named queries over batches. */
module BatchDto {
  import opened Wrappers
  import opened Postgres
  import opened Queries

  /** The kind of a batch: a full resynchronisation or a delta. */
  datatype Type = TOTAL | INCREMENTAL {
    /** Enum.name() */
    function Name(): string {
      match this
      case TOTAL => "TOTAL"
      case INCREMENTAL => "INCREMENTAL"
    }
  }

  /** The column values of one batch row. A null completion time means the batch is open. */
  datatype BatchRow = BatchRow(
    id: int,
    dataset: int,
    batchKey: int,
    batchType: Option<Type>,
    timeOfCreation: Option<Timestamp>,
    timeOfCompletion: Option<Timestamp>)

  /** The key a batch table is ordered by. */
  function BatchId(b: BatchRow): int { b.id }

  /** Batch.getNextBatch: batches of `dataset` with an id above `lastSeenId`, by ascending id. */
  function NextBatchQuery(batches: seq<BatchRow>, lastSeenId: int, dataset: int): (r: seq<BatchRow>)
    ensures forall b :: b in r <==> b in batches && b.id > lastSeenId && b.dataset == dataset
    ensures Ascending(batches, BatchId) ==> Ascending(r, BatchId)
  {
    var p := (b: BatchRow) => b.id > lastSeenId && b.dataset == dataset;
    FilterAscending(batches, p, BatchId);
    Filter(batches, p)
  }

  /** Batch.getBatchByKey: the batches whose batch key equals `key`. */
  function BatchByKeyQuery(batches: seq<BatchRow>, key: int): (r: seq<BatchRow>)
    ensures forall b :: b in r <==> b in batches && b.batchKey == key
  {
    Filter(batches, (b: BatchRow) => b.batchKey == key)
  }

  /** A Batch entity object; its generated id is assigned by the store. */
  class Batch {
    var id: int
    var dataset: int
    var batchKey: int
    var batchType: Option<Type>
    var timeOfCreation: Option<Timestamp>
    var timeOfCompletion: Option<Timestamp>

    /** The values this object would be written to the batch table with. */
    function Row(): BatchRow
      reads this
    {
      BatchRow(id, dataset, batchKey, batchType, timeOfCreation, timeOfCompletion)
    }

    /** new Batch(): every field at its Java default. */
    constructor ()
      ensures Row() == BatchRow(0, 0, 0, None, None, None)
    {
      id, dataset, batchKey := 0, 0, 0;
      batchType, timeOfCreation, timeOfCompletion := None, None, None;
    }

    method WithId(id: int) returns (r: Batch)
      modifies this
      ensures r == this && Row() == old(Row()).(id := id)
    {
      this.id := id;
      r := this;
    }

    method WithDataset(dataset: int) returns (r: Batch)
      modifies this
      ensures r == this && Row() == old(Row()).(dataset := dataset)
    {
      this.dataset := dataset;
      r := this;
    }

    method WithBatchKey(batchKey: int) returns (r: Batch)
      modifies this
      ensures r == this && Row() == old(Row()).(batchKey := batchKey)
    {
      this.batchKey := batchKey;
      r := this;
    }

    method WithType(batchType: Option<Type>) returns (r: Batch)
      modifies this
      ensures r == this && Row() == old(Row()).(batchType := batchType)
    {
      this.batchType := batchType;
      r := this;
    }

    method WithTimeOfCreation(timeOfCreation: Option<Timestamp>) returns (r: Batch)
      modifies this
      ensures r == this && Row() == old(Row()).(timeOfCreation := timeOfCreation)
    {
      this.timeOfCreation := timeOfCreation;
      r := this;
    }

    method WithTimeOfCompletion(timeOfCompletion: Option<Timestamp>) returns (r: Batch)
      modifies this
      ensures r == this && Row() == old(Row()).(timeOfCompletion := timeOfCompletion)
    {
      this.timeOfCompletion := timeOfCompletion;
      r := this;
    }
  }
}
