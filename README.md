# Tickle repository: a Dafny model of the batch/record lifecycle

The tickle repository tracks records ingested into named **datasets** through
**batches**. A TOTAL batch is a full resynchronisation of a dataset and runs a
three-state mark-sweep over record status: creating it **marks** every ACTIVE
record RESET, the ingestion pipeline re-touches the records it still delivers,
and closing the batch **sweeps** what is still RESET to DELETED, moving those
records to the closing batch. Aborting a TOTAL batch **undoes the mark**
(RESET back to ACTIVE) and then closes the batch. INCREMENTAL batches skip all
three bulk updates. Consumers poll `getNextBatch` for the next completed batch
and read its records through a one-shot cursor that clears its buffer every 50
rows. Enum and JSON fields are stored through small converters to and from a
PostgreSQL `PGobject`.

The model:

- `TickleRepository.TickleRepo` is the store: a class holding the dataset,
  batch and record tables as sequences kept in ascending id order, and the two
  id sequences. `CreateBatch`, `CloseBatch`, `AbortBatch` and `CreateDataSet`
  change it; the lookups and `GetNextBatch` are functions that read it.
- `Mark`, `Sweep` and `UndoMark` give the bulk update statements, row by row;
  the lemmas beside them prove the protocol's promises (an abort restores a
  freshly marked dataset, the close after an abort sweeps nothing, an
  unconfirmed record ends DELETED under the closing batch).
- `TickleRepository.ResultSet` is the cursor: a position, the retained buffer
  (never more than 50 rows) and a released flag.
- `RecordDto`, `BatchDto`, `DataSetDto` and `DataSetSummaryDto` hold the entity
  classes with their fluent `With*` builders (each assigns its own field and
  returns the same object) and the value rows the store keeps.
- One module per converter. Java `null` is `Option.None`, a thrown
  `IllegalArgumentException` is `Result.IllegalArgumentException`, and a
  `PGobject` is a pair of type name and optional value.
- Wall-clock time is an explicit `now` parameter; a `Timestamp` is a number of
  milliseconds.

Where the code differs from what one would expect, the model follows the code:

- The mark, sweep, undo-mark, records-in-batch and record-by-localId queries
  are referenced by `TickleRepo.java` but not defined in `Record.java`. Their
  semantics come from the doc comments of `createBatch`, `closeBatch` and
  `abortBatch` and from the integration tests. The sweep query is also given a
  `now` parameter (`TickleRepo.java:184`); the model reads that parameter as
  the new `timeOfLastModification` of each swept record. The model does not
  clear checksums in the sweep.
- `getNextBatch` limits the query to one row before it filters for completion,
  so an open next batch hides every later completed batch.
- `lookupDataSet` names a query constant (`GET_DATASET_BY_NAME_QUERY_NAME`) that
  `DataSet.java` does not declare; it declares `GET_DATASET_BY_NAME`. The model
  gives the intended by-name lookup.
- `updateBatchIfModified` is exercised by `RecordTest` but is not in the
  `Record.java`, which has only the field `chksum` and `withChksum`. It is
  modelled from the tests, over `chksum`. A missing stored checksum always
  counts as modified. So while a record's stored checksum stays null it moves
  to each batch that touches it; once a touch stores a non-null checksum, a
  later batch with the same checksum leaves it where it is.
- `DataSetSummary.withTimeOfLastModification` ignores its argument.

## Model

| member | source | states |
|---|---|---|
| `RecordDto.UpdatedIfModified` | api/src/test/java/dk/dbc/ticklerepo/dto/RecordTest.java:14-59 | a modified checksum (stored one null or different) sets batch and checksum; an equal one leaves the row as it was; no other field changes |
| `RecordDto.Record.UpdateBatchIfModified` | api/src/test/java/dk/dbc/ticklerepo/dto/RecordTest.java:14-59 | the record takes the given batch's id and checksum exactly when its stored checksum is null or differs |
| `RecordDto.UpdateIfModifiedIdempotent` | api/src/test/java/dk/dbc/ticklerepo/dto/RecordTest.java:46-59 | a second call with the same batch and checksum is a no-op |
| `RecordDto.UnchangedContentKeepsBatch` | api/src/test/java/dk/dbc/ticklerepo/dto/RecordTest.java:46-59 | once a non-null checksum is stored, a later batch with the same checksum does not move the batch pointer |
| `RecordDto.Record.constructor` | api/src/main/java/dk/dbc/ticklerepo/dto/Record.java:56 | a new record has every field at its Java default |
| `RecordDto.Record.WithId` | api/src/main/java/dk/dbc/ticklerepo/dto/Record.java:62-65 | assigns only `id` and returns the same object |
| `RecordDto.Record.WithBatch` | api/src/main/java/dk/dbc/ticklerepo/dto/Record.java:71-74 | assigns only `batch` and returns the same object |
| `RecordDto.Record.WithDataset` | api/src/main/java/dk/dbc/ticklerepo/dto/Record.java:80-83 | assigns only `dataset` and returns the same object |
| `RecordDto.Record.WithAgencyId` | api/src/main/java/dk/dbc/ticklerepo/dto/Record.java:89-92 | assigns only `agencyId` and returns the same object |
| `RecordDto.Record.WithLocalId` | api/src/main/java/dk/dbc/ticklerepo/dto/Record.java:98-101 | assigns only `localId` and returns the same object |
| `RecordDto.Record.WithTrackingId` | api/src/main/java/dk/dbc/ticklerepo/dto/Record.java:107-110 | assigns only `trackingId` and returns the same object |
| `RecordDto.Record.WithStatus` | api/src/main/java/dk/dbc/ticklerepo/dto/Record.java:116-119 | assigns only `status` and returns the same object |
| `RecordDto.Record.WithContent` | api/src/main/java/dk/dbc/ticklerepo/dto/Record.java:133-136 | assigns only `content` and returns the same object |
| `RecordDto.Record.WithChksum` | api/src/main/java/dk/dbc/ticklerepo/dto/Record.java:142-145 | assigns only `chksum` and returns the same object |
| `RecordDto.Record.OnDatabaseCommit` | api/src/main/java/dk/dbc/ticklerepo/dto/Record.java:162-166 | sets the modification time to now and changes nothing else |
| `BatchDto.NextBatchQuery` | api/src/main/java/dk/dbc/ticklerepo/dto/Batch.java:29-31 | selects exactly the batches of the dataset with an id above the last seen one, in ascending id order |
| `BatchDto.BatchByKeyQuery` | api/src/main/java/dk/dbc/ticklerepo/dto/Batch.java:25-27 | selects exactly the batches whose batch key equals the key |
| `BatchDto.Batch.constructor` | api/src/main/java/dk/dbc/ticklerepo/dto/Batch.java:24-61 | a new batch has every field at its Java default |
| `BatchDto.Batch.WithId` | api/src/main/java/dk/dbc/ticklerepo/dto/Batch.java:67-70 | assigns only `id` and returns the same object |
| `BatchDto.Batch.WithDataset` | api/src/main/java/dk/dbc/ticklerepo/dto/Batch.java:76-79 | assigns only `dataset` and returns the same object |
| `BatchDto.Batch.WithBatchKey` | api/src/main/java/dk/dbc/ticklerepo/dto/Batch.java:85-88 | assigns only `batchKey` and returns the same object |
| `BatchDto.Batch.WithType` | api/src/main/java/dk/dbc/ticklerepo/dto/Batch.java:94-97 | assigns only the type and returns the same object |
| `BatchDto.Batch.WithTimeOfCreation` | api/src/main/java/dk/dbc/ticklerepo/dto/Batch.java:103-106 | assigns only `timeOfCreation` and returns the same object |
| `BatchDto.Batch.WithTimeOfCompletion` | api/src/main/java/dk/dbc/ticklerepo/dto/Batch.java:112-115 | assigns only `timeOfCompletion` and returns the same object |
| `DataSetDto.DataSetByNameQuery` | api/src/main/java/dk/dbc/ticklerepo/dto/DataSet.java:25-27 | selects exactly the datasets whose name equals the parameter |
| `DataSetDto.DataSet.constructor` | api/src/main/java/dk/dbc/ticklerepo/dto/DataSet.java:23-42 | a new dataset has every field at its Java default |
| `DataSetDto.DataSet.WithId` | api/src/main/java/dk/dbc/ticklerepo/dto/DataSet.java:48-51 | assigns only `id` and returns the same object |
| `DataSetDto.DataSet.WithName` | api/src/main/java/dk/dbc/ticklerepo/dto/DataSet.java:57-60 | assigns only `name` and returns the same object |
| `DataSetDto.DataSet.WithDisplayName` | api/src/main/java/dk/dbc/ticklerepo/dto/DataSet.java:66-69 | assigns only `displayName` and returns the same object |
| `DataSetDto.DataSet.WithAgencyId` | api/src/main/java/dk/dbc/ticklerepo/dto/DataSet.java:75-78 | assigns only `agencyId` and returns the same object |
| `DataSetDto.DataSet.ToString` | api/src/main/java/dk/dbc/ticklerepo/dto/DataSet.java:80-88 | the text opens with the id and ends with the agency id, inside `DataSet{...}` |
| `DataSetDto.DecimalRoundTrip` | api/src/main/java/dk/dbc/ticklerepo/dto/DataSet.java:80-88 | the numbers in that text are decimal numerals that read back to the id and agency id |
| `DataSetSummaryDto.DataSetSummary.Empty` | api/src/main/java/dk/dbc/ticklerepo/dto/DataSetSummary.java:22-23 | the no-argument constructor leaves every field at its Java default |
| `DataSetSummaryDto.DataSetSummary.constructor` | api/src/main/java/dk/dbc/ticklerepo/dto/DataSetSummary.java:25-33 | stores each of the seven arguments in its field |
| `DataSetSummaryDto.DataSetSummary.WithName` | api/src/main/java/dk/dbc/ticklerepo/dto/DataSetSummary.java:39-42 | assigns only `name` and returns the same object |
| `DataSetSummaryDto.DataSetSummary.WithSum` | api/src/main/java/dk/dbc/ticklerepo/dto/DataSetSummary.java:48-51 | assigns only `sum` and returns the same object |
| `DataSetSummaryDto.DataSetSummary.WithActive` | api/src/main/java/dk/dbc/ticklerepo/dto/DataSetSummary.java:57-60 | assigns only `active` and returns the same object |
| `DataSetSummaryDto.DataSetSummary.WithDeleted` | api/src/main/java/dk/dbc/ticklerepo/dto/DataSetSummary.java:66-69 | assigns only `deleted` and returns the same object |
| `DataSetSummaryDto.DataSetSummary.WithReset` | api/src/main/java/dk/dbc/ticklerepo/dto/DataSetSummary.java:75-78 | assigns only `reset` and returns the same object |
| `DataSetSummaryDto.DataSetSummary.WithTimeOfLastModification` | api/src/main/java/dk/dbc/ticklerepo/dto/DataSetSummary.java:84-89 | ignores its argument: the summary's value is unchanged, a null time stays null |
| `DataSetSummaryDto.DataSetSummary.WithBatchId` | api/src/main/java/dk/dbc/ticklerepo/dto/DataSetSummary.java:95-98 | assigns only `batchId` and returns the same object |
| `DataSetSummaryDto.DataSetSummary.GetTimeOfLastModification` | api/src/main/java/dk/dbc/ticklerepo/dto/DataSetSummary.java:80-82 | returns the stored time |
| `RecordStatusConverter.ConvertToDatabaseColumn` | api/src/main/java/dk/dbc/ticklerepo/dto/RecordStatusConverter.java:17-31 | never fails; always type `record_status`; null only for a null status; decoding the value gives the status back |
| `RecordStatusConverter.ConvertToEntityAttribute` | api/src/main/java/dk/dbc/ticklerepo/dto/RecordStatusConverter.java:34-48 | throws exactly for null; yields status s exactly for s's name; yields null exactly for any other text |
| `BatchTypeConverter.ConvertToDatabaseColumn` | api/src/main/java/dk/dbc/ticklerepo/dto/BatchTypeConverter.java:17-31 | never fails; always type `batch_type`; null only for a null type; decoding the value gives the type back |
| `BatchTypeConverter.ConvertToEntityAttribute` | api/src/main/java/dk/dbc/ticklerepo/dto/BatchTypeConverter.java:34-46 | throws exactly for null; yields type t exactly for t's name; yields null exactly for any other text |
| `BatchEntityTypeConversion.ToDatabaseColumn` | api/src/main/java/dk/dbc/ticklerepo/dto/BatchEntityTypeConversion.java:13-25 | throws exactly for null; otherwise type `batch_type` with the constant's name, which decodes back to the constant |
| `BatchEntityTypeConversion.ToEntityAttribute` | api/src/main/java/dk/dbc/ticklerepo/dto/BatchEntityTypeConversion.java:27-37 | throws exactly for null; yields constant t exactly for t's name; yields null exactly for any other text |
| `BatchEntityTypeConverter.ConvertToDatabaseColumn` | api/src/main/java/dk/dbc/ticklerepo/dto/BatchEntityTypeConverter.java:16-18 | equals the conversion on every input: null throws, ACTIVE encodes as `batch_type`/`ACTIVE` |
| `BatchEntityTypeConverter.ConvertToEntityAttribute` | api/src/main/java/dk/dbc/ticklerepo/dto/BatchEntityTypeConverter.java:21-23 | equals the conversion on every input: null throws, the three names decode, `UNKNOWN` gives null |
| `JSonBConverter.ConvertToDatabaseColumn` | api/src/main/java/dk/dbc/ticklerepo/dto/JSonBConverter.java:13-22 | type `jsonb` holding the text; decoding gives back the text, null included |
| `JSonBConverter.ConvertToEntityAttribute` | api/src/main/java/dk/dbc/ticklerepo/dto/JSonBConverter.java:25-28 | null gives null; otherwise the object's value unchanged |
| `TickleRepository.Mark` | api/src/main/java/dk/dbc/ticklerepo/TickleRepo.java:44-50 | every ACTIVE record of the dataset becomes RESET, every other row is unchanged, no ACTIVE record of the dataset remains |
| `TickleRepository.Sweep` | api/src/main/java/dk/dbc/ticklerepo/TickleRepo.java:65-72 | every RESET record of the dataset becomes DELETED under the closing batch, stamped now; every other row unchanged; no RESET remains |
| `TickleRepository.UndoMark` | api/src/main/java/dk/dbc/ticklerepo/TickleRepo.java:83-90 | every RESET record of the dataset becomes ACTIVE with its batch pointer kept; every other row unchanged; no RESET remains |
| `TickleRepository.RecordsInBatchQuery` | api/src/main/java/dk/dbc/ticklerepo/TickleRepo.java:125-127 | exactly the records pointing at the batch, strictly ascending by id |
| `TickleRepository.RecordByLocalIdQuery` | api/src/main/java/dk/dbc/ticklerepo/TickleRepo.java:161-168 | exactly the records of the dataset with the local id |
| `TickleRepository.SweepWithoutResetIsNoOp` | api/src/main/java/dk/dbc/ticklerepo/TickleRepo.java:92-97 | a sweep over a dataset with nothing RESET changes nothing |
| `TickleRepository.AbortUndoesMark` | api/src/main/java/dk/dbc/ticklerepo/TickleRepo.java:83-97 | undo-mark after mark restores the records exactly, when nothing was RESET before |
| `TickleRepository.UnconfirmedRecordsAreDeleted` | api/src/main/java/dk/dbc/ticklerepo/TickleRepo.java:44-81 | mark then sweep deletes every ACTIVE or RESET record of the dataset under the closing batch and touches nothing else |
| `TickleRepository.UndoMarkKeepsDeletions` | api/src/main/java/dk/dbc/ticklerepo/TickleRepo.java:83-91 | undo-mark neither deletes nor undeletes a record |
| `TickleRepository.TickleRepo.constructor` | api/src/main/java/dk/dbc/ticklerepo/TickleRepo.java:40-42 | a repository over a consistent store in the given state |
| `TickleRepository.TickleRepo.CreateBatch` | api/src/main/java/dk/dbc/ticklerepo/TickleRepo.java:54-63 | the batch gets the next id and the creation time and is appended; a TOTAL batch marks its dataset, any other changes no record; the store stays consistent |
| `TickleRepository.TickleRepo.CloseBatch` | api/src/main/java/dk/dbc/ticklerepo/TickleRepo.java:75-81 | the stored row takes the merged batch with its original creation time and a completion time; no completion time is cleared; a TOTAL batch sweeps its dataset, leaving nothing RESET; any other changes no record |
| `TickleRepository.TickleRepo.AbortBatch` | api/src/main/java/dk/dbc/ticklerepo/TickleRepo.java:92-97 | a TOTAL batch's dataset is undo-marked and nothing is swept; no record is deleted or moved to another batch; the batch is completed |
| `TickleRepository.TickleRepo.GetNextBatch` | api/src/main/java/dk/dbc/ticklerepo/TickleRepo.java:104-118 | returns the lowest-id later batch of the dataset, only if completed; when empty, every later completed batch is hidden by an open one with a lower id |
| `TickleRepository.TickleRepo.Filtered` | api/src/main/java/dk/dbc/ticklerepo/TickleRepo.java:116-117 | keeps the limited row only when it has a completion time |
| `TickleRepository.TickleRepo.FindBatch` | api/src/main/java/dk/dbc/ticklerepo/TickleRepo.java:139 | finds a stored batch with the id, and is empty exactly when none exists |
| `TickleRepository.TickleRepo.FindRecord` | api/src/main/java/dk/dbc/ticklerepo/TickleRepo.java:160 | finds a stored record with the id, and is empty exactly when none exists |
| `TickleRepository.TickleRepo.FindDataSet` | api/src/main/java/dk/dbc/ticklerepo/TickleRepo.java:258 | finds a stored dataset with the id, and is empty exactly when none exists |
| `TickleRepository.TickleRepo.LookupBatch` | api/src/main/java/dk/dbc/ticklerepo/TickleRepo.java:136-150 | null gives empty; a positive id finds by id; else a positive key finds by key; else empty; found exactly when a match exists |
| `TickleRepository.TickleRepo.LookupRecord` | api/src/main/java/dk/dbc/ticklerepo/TickleRepo.java:157-172 | null gives empty; a positive id finds by id; else a local id with a positive dataset finds by both; else empty; found exactly when a match exists |
| `TickleRepository.TickleRepo.LookupDataSet` | api/src/main/java/dk/dbc/ticklerepo/TickleRepo.java:255-269 | null gives empty; a positive id finds by id; else a name finds by name; else empty; found exactly when a match exists |
| `TickleRepository.TickleRepo.CreateDataSet` | api/src/main/java/dk/dbc/ticklerepo/TickleRepo.java:276-282 | the dataset gets the next id and is appended; nothing else changes; the store stays consistent |
| `TickleRepository.TickleRepo.GetRecordsInBatch` | api/src/main/java/dk/dbc/ticklerepo/TickleRepo.java:125-129 | a fresh unread cursor over exactly the batch's records, each once, in ascending id order |
| `TickleRepository.ResultSet.constructor` | api/src/main/java/dk/dbc/ticklerepo/TickleRepo.java:202-219 | a cursor at position 0 with an empty buffer, not released |
| `TickleRepository.ResultSet.HasNext` | api/src/main/java/dk/dbc/ticklerepo/TickleRepo.java:225-227 | on an open cursor, true exactly when some row is still unread |
| `TickleRepository.ResultSet.Next` | api/src/main/java/dk/dbc/ticklerepo/TickleRepo.java:231-238 | on an open cursor, returns the row at the position and advances; the buffer is cleared at every multiple of 50 and never holds more than 50 rows |
| `TickleRepository.ResultSet.Close` | api/src/main/java/dk/dbc/ticklerepo/TickleRepo.java:243-247 | releases the cursor |
| `TickleRepository.ReadAll` | api/src/test/java/dk/dbc/ticklerepo/TickleRepoIT.java:119-132 | a for-each over the cursor yields every unread row once, in order, and closes it |

## Left out

- `TickleRepoDatabaseMigrator`, `BatchEntity` and `DataSetEntity`: schema migration and legacy mappings that `TickleRepo` does not use. Only `BatchEntity.Type` is declared, as the domain of its converter.
- JPA machinery: each public operation is one atomic step on in-memory tables. Transactions and `REQUIRES_NEW`, `flush`, cache hints, the JDBC fetch size and the paging inside `CursoredStream` are not modelled.
- Persistence failures: unique-constraint, foreign-key and I/O errors are not modelled, so no operation fails.
- The counts that mark, sweep and undo-mark return: they are only logged. Logging and `getEntityManager` are left out too.
- Managed-object identity: lookups return the stored values, not live entities.
- `TickleRepository.TickleRepo.CloseBatch`: treats its argument as the managed instance and requires the batch to be stored already. A detached copy (left without the completion time) and the insert JPA would do on merging a new batch are not modelled.
- `TickleRepository.TickleRepo.AbortBatch`: requires the batch to be stored already, as `CloseBatch` does.
- `TickleRepository.TickleRepo.CreateBatch`: an id the caller preset is replaced by the next sequence value.
- `TickleRepository.ResultSet.Next`: requires an unread row and an open cursor; calling `next()` past the end, or after `close()`, is outside the contract of the one-time iteration. `HasNext` likewise requires an open cursor. The cursor is modelled over record rows only, its one use.
- `TickleRepository.Sweep`: the text of the sweep query is not in `Record.java`. Stamping each swept record's `timeOfLastModification` with the query's `now` parameter is an assumption of the model; the status and batch changes follow the doc comment of `closeBatch`.
- `DataSetDto.DataSet.ToString`: the contract states the id at the head and the agency id at the tail; where the name and display name fall is not stated.
- The `toString` of `Record`, `Batch` and `DataSetSummary`, and the plain getters: they only read fields.
- Java `int` and `Long` are unbounded integers: 32-bit overflow of the id sequences is not modelled.
- Timestamps are whole milliseconds, so sub-millisecond precision is not modelled. The copy in `withTimeOfLastModification` would drop it.
- The `SQLException` branches in the converters: `PGobject.setValue` is taken as total. A stored value that is not a `String` (a `ClassCastException`) is outside the model, where stored values are nullable strings.
