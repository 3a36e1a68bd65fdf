/** A per-dataset tally of records by status, as reported to monitoring callers. */
module DataSetSummaryDto {
  import opened Wrappers
  import opened Postgres

  /** The values a summary holds; the counts are nullable java.lang.Long. */
  datatype Summary = Summary(
    name: Option<string>,
    sum: Option<int>,
    active: Option<int>,
    deleted: Option<int>,
    reset: Option<int>,
    timeOfLastModification: Option<Timestamp>,
    batchId: int)

  class DataSetSummary {
    var name: Option<string>
    var sum: Option<int>
    var active: Option<int>
    var deleted: Option<int>
    var reset: Option<int>
    var timeOfLastModification: Option<Timestamp>
    var batchId: int

    function Value(): Summary
      reads this
    {
      Summary(name, sum, active, deleted, reset, timeOfLastModification, batchId)
    }

    /** new DataSetSummary(): every field at its Java default. */
    constructor Empty()
      ensures Value() == Summary(None, None, None, None, None, None, 0)
    {
      name, sum, active, deleted, reset := None, None, None, None, None;
      timeOfLastModification, batchId := None, 0;
    }

    /** The full constructor stores each of its seven arguments in the field of the same name. */
    constructor (name: Option<string>, sum: Option<int>, active: Option<int>, deleted: Option<int>,
                 reset: Option<int>, timeOfLastModification: Option<Timestamp>, batchId: int)
      ensures Value() == Summary(name, sum, active, deleted, reset, timeOfLastModification, batchId)
    {
      this.name := name;
      this.sum := sum;
      this.active := active;
      this.deleted := deleted;
      this.reset := reset;
      this.timeOfLastModification := timeOfLastModification;
      this.batchId := batchId;
    }

    method WithName(name: Option<string>) returns (r: DataSetSummary)
      modifies this
      ensures r == this && Value() == old(Value()).(name := name)
    {
      this.name := name;
      r := this;
    }

    method WithSum(sum: Option<int>) returns (r: DataSetSummary)
      modifies this
      ensures r == this && Value() == old(Value()).(sum := sum)
    {
      this.sum := sum;
      r := this;
    }

    method WithActive(active: Option<int>) returns (r: DataSetSummary)
      modifies this
      ensures r == this && Value() == old(Value()).(active := active)
    {
      this.active := active;
      r := this;
    }

    method WithDeleted(deleted: Option<int>) returns (r: DataSetSummary)
      modifies this
      ensures r == this && Value() == old(Value()).(deleted := deleted)
    {
      this.deleted := deleted;
      r := this;
    }

    method WithReset(reset: Option<int>) returns (r: DataSetSummary)
      modifies this
      ensures r == this && Value() == old(Value()).(reset := reset)
    {
      this.reset := reset;
      r := this;
    }

    /**
     * Ignores `modified`: a stored time is replaced by a copy of itself and a
     * null stays null, so the summary's value does not change.
     */
    method WithTimeOfLastModification(modified: Option<Timestamp>) returns (r: DataSetSummary)
      modifies this
      ensures r == this && Value() == old(Value())
    {
      if timeOfLastModification.Some? {
        timeOfLastModification := Some(timeOfLastModification.value);
      }
      r := this;
    }

    method WithBatchId(batchId: int) returns (r: DataSetSummary)
      modifies this
      ensures r == this && Value() == old(Value()).(batchId := batchId)
    {
      this.batchId := batchId;
      r := this;
    }

    /** getTimeOfLastModification: the stored time, whatever was last passed to the builder. */
    method GetTimeOfLastModification() returns (t: Option<Timestamp>)
      ensures t == timeOfLastModification
    {
      t := timeOfLastModification;
    }
  }
}
