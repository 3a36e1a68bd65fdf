/** Stores Batch.Type in the database's batch_type enum column. */
module BatchTypeConverter {
  import opened Wrappers
  import opened Postgres
  import opened BatchDto

  const ColumnType := "batch_type"

  /** The names the database uses for the two batch types. */
  const TypeNames: set<string> := {"TOTAL", "INCREMENTAL"}

  /** A type is always encoded, a null one as a batch_type object holding null. */
  function ConvertToDatabaseColumn(batchType: Option<Type>): (r: PGobject)
    ensures r.typeName == ColumnType
    ensures r.value.None? <==> batchType.None?
    ensures r.value.Some? ==> r.value.value in TypeNames
    ensures forall t: Type :: batchType == Some(t) ==> ConvertToEntityAttribute(r.value) == Ok(Some(t))
  {
    PGobject(ColumnType, if batchType.None? then None else Some(batchType.value.Name()))
  }

  /**
   * Decodes a stored value: null is rejected with IllegalArgumentException, the
   * two type names decode to their type, and any other text decodes to null.
   */
  function ConvertToEntityAttribute(dbValue: Option<string>): (r: Result<Option<Type>>)
    ensures r.IllegalArgumentException? <==> dbValue.None?
    ensures forall t: Type :: r == Ok(Some(t)) <==> dbValue == Some(t.Name())
    ensures r == Ok(None) <==> dbValue.Some? && dbValue.value !in TypeNames
  {
    if dbValue.None? then IllegalArgumentException("dbValue can not be null")
    else match dbValue.value
      case "INCREMENTAL" => Ok(Some(INCREMENTAL))
      case "TOTAL" => Ok(Some(TOTAL))
      case _ => Ok(None)
  }
}
