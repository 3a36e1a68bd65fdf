/** The record entity: one item of a dataset, and the batch that last touched it. */
module RecordDto {
  import opened Wrappers
  import opened Postgres
  import BatchDto

  /** Where a record stands in the mark-sweep protocol. */
  datatype Status = ACTIVE | DELETED | RESET {
    /** Enum.name() */
    function Name(): string {
      match this
      case ACTIVE => "ACTIVE"
      case DELETED => "DELETED"
      case RESET => "RESET"
    }
  }

  /** The column values of one record row. */
  datatype RecordRow = RecordRow(
    id: int,
    batch: int,
    dataset: int,
    agencyId: int,
    localId: Option<string>,
    trackingId: Option<string>,
    status: Option<Status>,
    timeOfCreation: Option<Timestamp>,
    timeOfLastModification: Option<Timestamp>,
    content: Option<seq<bv8>>,
    chksum: Option<string>)

  /** The key a record table is ordered by. */
  function RecordId(r: RecordRow): int { r.id }

  /** Whether content carrying `checksum` differs from what `row` holds: a missing checksum always does. */
  predicate Modified(row: RecordRow, checksum: Option<string>) {
    row.chksum.None? || row.chksum != checksum
  }

  /** The row after updateBatchIfModified(batch `batchId`, `checksum`). */
  function UpdatedIfModified(row: RecordRow, batchId: int, checksum: Option<string>): (r: RecordRow)
    ensures Modified(row, checksum) ==> r.batch == batchId && r.chksum == checksum
    ensures !Modified(row, checksum) ==> r == row
    ensures r.(batch := row.batch, chksum := row.chksum) == row
  {
    if Modified(row, checksum) then row.(batch := batchId, chksum := checksum) else row
  }

  /** Repeating an update with the same batch and checksum changes nothing more. */
  lemma UpdateIfModifiedIdempotent(row: RecordRow, batchId: int, checksum: Option<string>)
    ensures var once := UpdatedIfModified(row, batchId, checksum);
            UpdatedIfModified(once, batchId, checksum) == once
  {
  }

  /**
   * Once a record carries a non-null checksum, another batch bringing the same
   * checksum does not move the record's batch pointer: the pointer moves at most once.
   */
  lemma UnchangedContentKeepsBatch(row: RecordRow, firstBatch: int, laterBatch: int, checksum: string)
    ensures var once := UpdatedIfModified(row, firstBatch, Some(checksum));
            UpdatedIfModified(once, laterBatch, Some(checksum)) == once
  {
  }

  /** A Record entity object. */
  class Record {
    var id: int
    var batch: int
    var dataset: int
    var agencyId: int
    var localId: Option<string>
    var trackingId: Option<string>
    var status: Option<Status>
    var timeOfCreation: Option<Timestamp>
    var timeOfLastModification: Option<Timestamp>
    var content: Option<seq<bv8>>
    var chksum: Option<string>

    /** The values this object holds, as a record row. */
    function Row(): RecordRow
      reads this
    {
      RecordRow(id, batch, dataset, agencyId, localId, trackingId, status,
                timeOfCreation, timeOfLastModification, content, chksum)
    }

    /** new Record(): every field at its Java default. */
    constructor ()
      ensures Row() == RecordRow(0, 0, 0, 0, None, None, None, None, None, None, None)
    {
      id, batch, dataset, agencyId := 0, 0, 0, 0;
      localId, trackingId, status := None, None, None;
      timeOfCreation, timeOfLastModification := None, None;
      content, chksum := None, None;
    }

    method WithId(id: int) returns (r: Record)
      modifies this
      ensures r == this && Row() == old(Row()).(id := id)
    {
      this.id := id;
      r := this;
    }

    method WithBatch(batch: int) returns (r: Record)
      modifies this
      ensures r == this && Row() == old(Row()).(batch := batch)
    {
      this.batch := batch;
      r := this;
    }

    method WithDataset(dataset: int) returns (r: Record)
      modifies this
      ensures r == this && Row() == old(Row()).(dataset := dataset)
    {
      this.dataset := dataset;
      r := this;
    }

    method WithAgencyId(agencyId: int) returns (r: Record)
      modifies this
      ensures r == this && Row() == old(Row()).(agencyId := agencyId)
    {
      this.agencyId := agencyId;
      r := this;
    }

    method WithLocalId(localId: Option<string>) returns (r: Record)
      modifies this
      ensures r == this && Row() == old(Row()).(localId := localId)
    {
      this.localId := localId;
      r := this;
    }

    method WithTrackingId(trackingId: Option<string>) returns (r: Record)
      modifies this
      ensures r == this && Row() == old(Row()).(trackingId := trackingId)
    {
      this.trackingId := trackingId;
      r := this;
    }

    method WithStatus(status: Option<Status>) returns (r: Record)
      modifies this
      ensures r == this && Row() == old(Row()).(status := status)
    {
      this.status := status;
      r := this;
    }

    method WithContent(content: Option<seq<bv8>>) returns (r: Record)
      modifies this
      ensures r == this && Row() == old(Row()).(content := content)
    {
      this.content := content;
      r := this;
    }

    method WithChksum(chksum: Option<string>) returns (r: Record)
      modifies this
      ensures r == this && Row() == old(Row()).(chksum := chksum)
    {
      this.chksum := chksum;
      r := this;
    }

    /**
     * Moves the record to `batch` and records `checksum`, unless the record
     * already holds exactly this non-null checksum.
     */
    method UpdateBatchIfModified(batch: BatchDto.Batch, checksum: Option<string>)
      modifies this
      ensures Row() == UpdatedIfModified(old(Row()), batch.id, checksum)
      ensures Modified(old(Row()), checksum) ==> this.batch == batch.id && chksum == checksum
      ensures !Modified(old(Row()), checksum) ==> Row() == old(Row())
    {
      if chksum.None? || chksum != checksum {
        this.batch := batch.id;
        chksum := checksum;
      }
    }

    /** The post-persist/post-update hook: stamps the modification time and nothing else. */
    method OnDatabaseCommit(now: Timestamp)
      modifies this
      ensures Row() == old(Row()).(timeOfLastModification := Some(now))
    {
      timeOfLastModification := Some(now);
    }
  }
}
