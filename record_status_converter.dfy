/** Stores Record.Status in the database's record_status enum column. */
module RecordStatusConverter {
  import opened Wrappers
  import opened Postgres
  import opened RecordDto

  const ColumnType := "record_status"

  /** The names the database uses for the three statuses. */
  const StatusNames: set<string> := {"ACTIVE", "DELETED", "RESET"}

  /** A status is always encoded, a null one as a record_status object holding null. */
  function ConvertToDatabaseColumn(status: Option<Status>): (r: PGobject)
    ensures r.typeName == ColumnType
    ensures r.value.None? <==> status.None?
    ensures r.value.Some? ==> r.value.value in StatusNames
    ensures forall s: Status :: status == Some(s) ==> ConvertToEntityAttribute(r.value) == Ok(Some(s))
  {
    PGobject(ColumnType, if status.None? then None else Some(status.value.Name()))
  }

  /**
   * Decodes a stored value: null is rejected with IllegalArgumentException, the
   * three status names decode to their status, and any other text decodes to null.
   */
  function ConvertToEntityAttribute(dbValue: Option<string>): (r: Result<Option<Status>>)
    ensures r.IllegalArgumentException? <==> dbValue.None?
    ensures forall s: Status :: r == Ok(Some(s)) <==> dbValue == Some(s.Name())
    ensures r == Ok(None) <==> dbValue.Some? && dbValue.value !in StatusNames
  {
    if dbValue.None? then IllegalArgumentException("dbValue can not be null")
    else match dbValue.value
      case "ACTIVE" => Ok(Some(ACTIVE))
      case "DELETED" => Ok(Some(DELETED))
      case "RESET" => Ok(Some(RESET))
      case _ => Ok(None)
  }

}
