/**
 * The conversion behind BatchEntityTypeConverter. Unlike the other two enum
 * converters it refuses to encode null.
 */
module BatchEntityTypeConversion {
  import opened Wrappers
  import opened Postgres
  import opened BatchEntityDto

  const ColumnType := "batch_type"

  /** The names the conversion recognises. */
  const TypeNames: set<string> := {"ACTIVE", "DELETED", "RESET"}

  /** Null is rejected; any constant becomes a batch_type object holding its name. */
  function ToDatabaseColumn(entityType: Option<Type>): (r: Result<PGobject>)
    ensures r.IllegalArgumentException? <==> entityType.None?
    ensures r.Ok? ==> r.value.typeName == ColumnType && r.value.value.Some?
                      && r.value.value.value in TypeNames
    ensures forall t: Type :: entityType == Some(t) ==> r.Ok? && ToEntityAttribute(r.value.value) == Ok(Some(t))
  {
    if entityType.None? then IllegalArgumentException("type can not be null")
    else Ok(PGobject(ColumnType, Some(entityType.value.Name())))
  }

  /**
   * Null is rejected with IllegalArgumentException; the three names decode to
   * their constant and any other text decodes to null.
   */
  function ToEntityAttribute(dbValue: Option<string>): (r: Result<Option<Type>>)
    ensures r.IllegalArgumentException? <==> dbValue.None?
    ensures forall t: Type :: r == Ok(Some(t)) <==> dbValue == Some(t.Name())
    ensures r == Ok(None) <==> dbValue.Some? && dbValue.value !in TypeNames
  {
    if dbValue.None? then IllegalArgumentException("dbValue can not be null")
    else match dbValue.value
      case "ACTIVE" => Ok(Some(ACTIVE))
      case "DELETED" => Ok(Some(DELETED))
      case "RESET" => Ok(Some(RESET))
      case _ => Ok(None)
  }
}
